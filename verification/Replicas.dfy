/** Runs of a folder that several devices replicate: local operations, manifests arriving from
other devices in any order, garbage collection interleaved with both, and a client that polls
for changes. */
module Replicas {
  import opened Wrappers
  import opened Manifests
  import opened StoreOperations

  /** Where the device's only garbage collection worker is. */
  datatype Collector =
    | Idle
    | Inspected(retained: set<Id>, candidates: set<Id>)
    | Trashed(trash: Directory)

  /** What the game client last synchronised. */
  datatype Client = Client(synced: nat, files: Files)

  datatype Replica = Replica(
    present: Directory, operations: map<nat, Operation>, collector: Collector, client: Client)

  datatype World = World(history: Directory, replicas: map<nat, Replica>)

  const EmptyReplica := Replica(map[], map[], Idle, Client(0, map[]))

  function ReplicaOf(w: World, device: nat): Replica {
    if device in w.replicas then w.replicas[device] else EmptyReplica
  }

  /** A call on the local store. */
  datatype Call =
    | Begin(op: nat, base: seq<Id>, resolution: Option<seq<Id>>, minimum: nat)
    | Stage(op: nat, blob: Blob)
    | Commit(op: nat, staged: seq<StagedFile>, deleted: set<Path>, author: Identity, now: nat)
    | Abort(op: nat)

  datatype Collection =
    | Inspect(seen: set<Id>)  // read the directory without the lock
    | Sweep                   // re-check and move the candidates, under the lock
    | Restore                 // put the moved manifests back
    | Finalize                // forget the moved manifests

  datatype Action =
    | Local(call: Call)
    | Import(id: Id)          // a manifest arrives from another device
    | Collect(part: Collection)
    | Poll                    // the client asks for changes

  /** The manifests of `history` named by `ids`. */
  function Only(history: Directory, ids: set<Id>): Directory {
    map id | id in ids && id in history :: history[id]
  }

  ghost function CallStep(digest: Digest, r: Replica, c: Call): Replica {
    if c.Begin? then
      var begun := BeginOperation(r.present, c.base, c.resolution, c.minimum);
      if begun.Err? || c.op in r.operations then r
      else r.(operations := r.operations[c.op := begun.value])
    else if c.op !in r.operations then r
    else if c.Stage? then
      var staged := StageFile(r.operations[c.op], c.blob);
      if staged.Err? then r else r.(operations := r.operations[c.op := staged.value])
    else if c.Commit? then
      var op := r.operations[c.op];
      var files := MergedFiles(op.originalFiles, c.staged, c.deleted);
      var what := Decide(digest, r.present, op, files, c.author, c.now);
      r.(present := DirectoryAfter(digest, r.present, what),
         operations := r.operations[c.op := OperationAfter(r.present, op, files, what)])
    else
      r.(operations := r.operations[c.op := AbortOperation(r.operations[c.op])])
  }

  function CollectStep(history: Directory, r: Replica, part: Collection): Replica {
    match (part, r.collector)
    case (Inspect(seen), Idle) =>
      var d := Only(history, seen);
      r.(collector := Inspected(Retained(d), Candidates(d)))
    case (Sweep, Inspected(retained, candidates)) =>
      if r.present.Keys != retained + candidates then r.(collector := Idle)
      else r.(present := r.present - candidates,
              collector := Trashed(Only(r.present, candidates)))
    case (Restore, Trashed(trash)) =>
      // A manifest that is present again keeps its place; its trashed copy is dropped.
      r.(present := trash + r.present, collector := Idle)
    case (Finalize, Trashed(_)) => r.(collector := Idle)
    case _ => r
  }

  function PollStep(r: Replica): Replica {
    var answer := ChangesSince(r.present, r.client.synced);
    if answer.Err? || answer.value.isDelta then r
    else r.(client := Client(answer.value.changeNumber, answer.value.files))
  }

  ghost function Step(digest: Digest, history: Directory, r: Replica, a: Action): Replica {
    match a
    case Local(call) => CallStep(digest, r, call)
    case Import(id) => if id in history then r.(present := r.present[id := history[id]]) else r
    case Collect(part) => CollectStep(history, r, part)
    case Poll => PollStep(r)
  }

  ghost function WorldStep(digest: Digest, w: World, device: nat, a: Action): World {
    var r := Step(digest, w.history, ReplicaOf(w, device), a);
    World(w.history + r.present, w.replicas[device := r])
  }

  ghost function Run(digest: Digest, w: World, steps: seq<(nat, Action)>): World
    decreases |steps|
  {
    if steps == [] then w
    else Run(digest, WorldStep(digest, w, steps[0].0, steps[0].1), steps[1..])
  }

  const Fresh := World(map[], map[])

  // ----- What every step keeps -----------------------------------------------------------

  ghost predicate GoodCollector(history: Directory, r: Replica) {
    match r.collector
    case Idle => true
    case Inspected(retained, candidates) =>
      // The report was computed from some set of genuine manifests.
      && retained + candidates <= history.Keys
      && candidates == Candidates(Only(history, retained + candidates))
      && retained !! candidates
    case Trashed(trash) =>
      && Held(history, trash)
      && forall id | id in trash :: HasChild(trash + r.present, id)
  }

  /** The client's files are those of a genuine manifest with its number, and as long as no
  newer revision is present that manifest is still here. */
  ghost predicate GoodClient(history: Directory, r: Replica) {
    && r.client.synced <= MaxRevision(r.present)
    && (r.client.synced == 0 ==> r.client.files == map[])
    && (r.client.synced > 0 ==>
          exists id :: Synchronised(history, r, id))
  }

  ghost predicate Synchronised(history: Directory, r: Replica, id: Id) {
    && id in history && history[id].revision == r.client.synced
    && history[id].files == r.client.files
    && (MaxRevision(r.present) == r.client.synced ==> id in r.present)
  }

  ghost predicate GoodReplica(history: Directory, r: Replica) {
    && Held(history, r.present)
    && GoodOperations(r.operations)
    && GoodCollector(history, r)
    && GoodClient(history, r)
  }

  ghost predicate Good(digest: Digest, w: World) {
    && GoodHistory(digest, w.history)
    && (forall device | device in w.replicas :: GoodReplica(w.history, w.replicas[device]))
  }

  /** How a directory may evolve: the largest revision never drops, and while it stays the same
  no manifest carrying it disappears. */
  ghost predicate Advances(before: Directory, after: Directory) {
    && MaxRevision(before) <= MaxRevision(after)
    && (MaxRevision(before) == MaxRevision(after) ==>
          forall id | id in before && before[id].revision == MaxRevision(before) :: id in after)
  }

  lemma GrowthAdvances(before: Directory, after: Directory)
    requires Held(after, before)
    ensures Advances(before, after)
  {
  }

  lemma ChildrenStay(before: Directory, after: Directory, id: Id)
    requires Held(after, before) && HasChild(before, id)
    ensures HasChild(after, id)
  {
    var c :| c in before && id in before[c].parents;
    assert id in after[c].parents;
  }

  lemma SweepAdvances(digest: Digest, history: Directory, d: Directory)
    requires GoodHistory(digest, history) && Held(history, d)
    ensures Advances(d, Swept(d))
  {
    SweepKeepsMaxRevision(digest, history, d);
    forall id | id in d && d[id].revision == MaxRevision(d) ensures id in Swept(d) {
      if id in Candidates(d) {
        CandidatesHaveChildren(d, id);
      }
    }
  }

  lemma ClientKeeps(history: Directory, r: Replica, after: Replica)
    requires GoodClient(history, r) && Held(history, r.present)
    requires Advances(r.present, after.present) && after.client == r.client
    ensures GoodClient(history, after)
  {
    if r.client.synced > 0 {
      var id :| Synchronised(history, r, id);
      assert Synchronised(history, after, id);
    }
  }

  lemma HistoryGrows(history: Directory, wider: Directory, r: Replica)
    requires Held(wider, history) && GoodReplica(history, r)
    ensures GoodReplica(wider, r)
  {
    if r.collector.Inspected? {
      var ids := r.collector.retained + r.collector.candidates;
      assert Only(history, ids) == Only(wider, ids);
    }
    if r.client.synced > 0 {
      var id :| Synchronised(history, r, id);
      assert Synchronised(wider, r, id);
    }
  }

  /** Replacing the directory by a wider one keeps the collector's report and trash good. */
  lemma CollectorKeeps(history: Directory, r: Replica, after: Replica)
    requires Held(history, r.present) && GoodCollector(history, r)
    requires Held(after.present, r.present) && Held(history, after.present)
    requires after.collector == r.collector
    ensures GoodCollector(history, after)
  {
    if r.collector.Trashed? {
      var trash := r.collector.trash;
      forall id | id in trash ensures HasChild(trash + after.present, id) {
        ChildrenStay(trash + r.present, trash + after.present, id);
      }
    }
  }

  ghost predicate GoodOperations(operations: map<nat, Operation>) {
    forall op | op in operations ::
      && operations[op].parents == operations[op].expectedHeads
      && (!operations[op].forcePublish ==> |operations[op].expectedHeads| <= 1)
  }

  /** A step that only adds genuine manifests keeps the replica good. */
  lemma GrowthGood(history: Directory, wider: Directory, r: Replica, after: Replica)
    requires GoodReplica(history, r) && Held(wider, history)
    requires Held(after.present, r.present) && Held(wider, after.present)
    requires after.collector == r.collector && after.client == r.client
    requires GoodOperations(after.operations)
    ensures GoodReplica(wider, after) && Advances(r.present, after.present)
  {
    HistoryGrows(history, wider, r);
    GrowthAdvances(r.present, after.present);
    CollectorKeeps(wider, r, after);
    ClientKeeps(wider, r, after);
  }

  // ----- Steps of the local store --------------------------------------------------------

  /** What a local call did to the directory: nothing, or one new manifest over all heads. */
  ghost predicate Published(digest: Digest, before: Directory, after: Directory, m: Manifest) {
    && PublishedOver(digest, before, after, m)
    && Heads(after) == {digest(m)} && MaxRevision(after) == m.revision
  }

  lemma CallPublishes(digest: Digest, history: Directory, r: Replica, c: Call)
    requires CollisionFree(digest) && GoodHistory(digest, history) && GoodReplica(history, r)
    ensures var after := CallStep(digest, r, c);
            after.present == r.present || exists m :: Published(digest, r.present, after.present, m)
  {
    if c.Commit? && c.op in r.operations {
      var op := r.operations[c.op];
      var files := MergedFiles(op.originalFiles, c.staged, c.deleted);
      var what := Decide(digest, r.present, op, files, c.author, c.now);
      if what.Publish? {
        CommitPublishes(digest, history, r.present, op, files, c.author, c.now);
        assert Published(digest, r.present, CallStep(digest, r, c).present, what.manifest);
      }
    }
  }

  lemma CallKeepsOperations(digest: Digest, r: Replica, c: Call)
    requires GoodOperations(r.operations)
    ensures GoodOperations(CallStep(digest, r, c).operations)
  {
  }

  /** Publishing extends the history without breaking it. */
  lemma PublishKeepsHistory(digest: Digest, history: Directory, d: Directory, m: Manifest)
    requires CollisionFree(digest) && GoodHistory(digest, history) && Held(history, d)
    requires m.parents <= d.Keys && m.revision > MaxRevision(d)
    ensures Held(history[digest(m) := m], history)
    ensures GoodHistory(digest, history[digest(m) := m])
  {
    assert digest(m) in history ==> history[digest(m)] == m;
    forall p | p in m.parents ensures p in history && history[p].revision < m.revision {
      assert p in d && d[p] == history[p];
    }
    hide CollisionFree, MaxRevision, Held;
    ExtendHistory(digest, history, m);
  }

  lemma ExtendHistory(digest: Digest, history: Directory, m: Manifest)
    requires GoodHistory(digest, history) && m.revision >= 1
    requires digest(m) in history ==> history[digest(m)] == m
    requires forall p | p in m.parents :: p in history && history[p].revision < m.revision
    ensures Held(history[digest(m) := m], history)
    ensures GoodHistory(digest, history[digest(m) := m])
  {
    var wider := history[digest(m) := m];
    forall c, p | c in wider && p in wider[c].parents
      ensures p in wider && wider[p].revision < wider[c].revision
    {
      assert c == digest(m) || c in history;
    }
  }

  lemma CallGood(digest: Digest, history: Directory, r: Replica, c: Call)
    requires CollisionFree(digest) && GoodHistory(digest, history) && GoodReplica(history, r)
    ensures var after := CallStep(digest, r, c);
            var wider := history + after.present;
            && Held(wider, history) && GoodHistory(digest, wider)
            && GoodReplica(wider, after) && Advances(r.present, after.present)
  {
    hide CallStep, CollisionFree, GoodHistory, GoodCollector, GoodClient, Advances, Heads;
    var after := CallStep(digest, r, c);
    var wider := history + after.present;
    CallPublishes(digest, history, r, c);
    CallKeepsOperations(digest, r, c);
    CallFrame(digest, r, c);
    if after.present == r.present {
      assert wider == history;
    } else {
      var m :| Published(digest, r.present, after.present, m);
      PublishKeepsHistory(digest, history, r.present, m);
      assert wider == history[digest(m) := m];
    }
    GrowthGood(history, wider, r, after);
  }

  lemma CallFrame(digest: Digest, r: Replica, c: Call)
    ensures CallStep(digest, r, c).collector == r.collector
    ensures CallStep(digest, r, c).client == r.client
  {
  }

  // ----- Collection, imports and polls ---------------------------------------------------

  /** Whatever the collector read, and whatever happened since, a sweep that is applied removes
  exactly the manifests that are neither heads nor direct parents of heads right now. */
  lemma SweepRemovesCandidates(history: Directory, r: Replica)
    requires Held(history, r.present) && GoodCollector(history, r) && r.collector.Inspected?
    requires r.present.Keys == r.collector.retained + r.collector.candidates
    ensures r.collector.candidates == Candidates(r.present)
    ensures CollectStep(history, r, Sweep).present == Swept(r.present)
    ensures CollectStep(history, r, Sweep).collector.trash + Swept(r.present) == r.present
  {
    assert Only(history, r.present.Keys) == r.present;
    hide Candidates;
    SweepSplits(r.present, Candidates(r.present));
  }

  /** Moving some manifests away splits the directory in two. */
  lemma SweepSplits(d: Directory, candidates: set<Id>)
    ensures Only(d, candidates) + (d - candidates) == d
  {
  }

  lemma SweepGood(digest: Digest, history: Directory, r: Replica)
    requires GoodHistory(digest, history) && GoodReplica(history, r) && r.collector.Inspected?
    ensures var after := CollectStep(history, r, Sweep);
            GoodReplica(history, after) && Advances(r.present, after.present)
  {
    var after := CollectStep(history, r, Sweep);
    if r.present.Keys == r.collector.retained + r.collector.candidates {
      SweepRemovesCandidates(history, r);
      SweepAdvances(digest, history, r.present);
      ClientKeeps(history, r, after);
      var trash := after.collector.trash;
      forall id | id in trash ensures HasChild(trash + after.present, id) {
        CandidatesHaveChildren(r.present, id);
        assert trash + after.present == r.present;
      }
    } else {
      GrowthAdvances(r.present, after.present);
      ClientKeeps(history, r, after);
    }
  }

  lemma InspectGood(history: Directory, r: Replica, seen: set<Id>)
    requires GoodReplica(history, r)
    ensures var after := CollectStep(history, r, Inspect(seen));
            GoodReplica(history, after) && after.present == r.present
  {
    if r.collector.Idle? {
      var d := Only(history, seen);
      var after := CollectStep(history, r, Inspect(seen));
      assert Retained(d) + Candidates(d) == d.Keys;
      assert Only(history, d.Keys) == d;
      ClientKeeps(history, r, after);
    }
  }

  lemma CollectGood(digest: Digest, history: Directory, r: Replica, part: Collection)
    requires GoodHistory(digest, history) && GoodReplica(history, r)
    ensures var after := CollectStep(history, r, part);
            GoodReplica(history, after) && Advances(r.present, after.present)
  {
    hide GoodHistory, GoodClient, Advances, Heads, HasChild;
    var after := CollectStep(history, r, part);
    match part
    case Inspect(seen) =>
      InspectGood(history, r, seen);
      GrowthAdvances(r.present, after.present);
    case Sweep =>
      if r.collector.Inspected? {
        SweepGood(digest, history, r);
      } else {
        GrowthAdvances(r.present, after.present);
      }
    case _ =>
      GrowthAdvances(r.present, after.present);
      ClientKeeps(history, r, after);
  }

  /** A poll that is answered leaves the client with the files of the current manifest, even
  when the answer is an empty delta; no answer ever claims the client is ahead. */
  lemma PollAgrees(digest: Digest, history: Directory, r: Replica)
    requires GoodHistory(digest, history) && GoodReplica(history, r) && |Heads(r.present)| <= 1
    ensures ChangesSince(r.present, r.client.synced).Ok?
    ensures PollStep(r).client == Client(CurrentRevision(r.present), CurrentFiles(r.present))
  {
    RevisionIsMax(digest, history, r.present);
    NoHeadsIffEmpty(digest, history, r.present);
    if r.client.synced == MaxRevision(r.present) && r.client.synced > 0 {
      var id :| Synchronised(history, r, id);
      var head := TheOnly(Heads(r.present));
      SingleHead(digest, history, r.present, head);
      assert id == head;
    } else if r.present == map[] {
      assert Heads(r.present) == {};
    }
  }

  lemma PollGood(digest: Digest, history: Directory, r: Replica)
    requires GoodHistory(digest, history) && GoodReplica(history, r)
    ensures GoodReplica(history, PollStep(r)) && PollStep(r).present == r.present
  {
    var after := PollStep(r);
    if |Heads(r.present)| <= 1 {
      PollAgrees(digest, history, r);
      hide PollStep, ChangesSince;
      assert GoodClient(history, after) by { PolledClient(digest, history, r, after); }
      hide GoodClient, GoodHistory, Heads;
      PollFrame(r);
    }
  }

  lemma PollFrame(r: Replica)
    ensures PollStep(r) == r.(client := PollStep(r).client)
  {
    hide ChangesSince;
  }

  lemma PolledClient(digest: Digest, history: Directory, r: Replica, after: Replica)
    requires GoodHistory(digest, history) && Held(history, r.present) && |Heads(r.present)| <= 1
    requires after.present == r.present
    requires after.client == Client(CurrentRevision(r.present), CurrentFiles(r.present))
    ensures GoodClient(history, after)
  {
    RevisionIsMax(digest, history, r.present);
    NoHeadsIffEmpty(digest, history, r.present);
    if after.client.synced > 0 {
      var head := TheOnly(Heads(r.present));
      SingleHead(digest, history, r.present, head);
      assert Synchronised(history, after, head);
    }
  }

  // ----- Every run -----------------------------------------------------------------------

  lemma StepGood(digest: Digest, history: Directory, r: Replica, a: Action)
    requires CollisionFree(digest) && GoodHistory(digest, history) && GoodReplica(history, r)
    ensures var after := Step(digest, history, r, a);
            var wider := history + after.present;
            && Held(wider, history) && GoodHistory(digest, wider)
            && GoodReplica(wider, after) && Advances(r.present, after.present)
  {
    hide CallStep, CollectStep, PollStep, CollisionFree, GoodHistory;
    hide GoodCollector, GoodClient, Advances;
    var after := Step(digest, history, r, a);
    match a
    case Local(call) =>
      CallGood(digest, history, r, call);
    case Import(id) =>
      assert history + after.present == history;
      GrowthGood(history, history, r, after);
    case Collect(part) =>
      CollectGood(digest, history, r, part);
      assert history + after.present == history;
    case Poll =>
      PollGood(digest, history, r);
      assert history + after.present == history;
      GrowthAdvances(r.present, after.present);
  }

  lemma WorldStepGood(digest: Digest, w: World, device: nat, a: Action)
    requires CollisionFree(digest) && Good(digest, w)
    ensures Good(digest, WorldStep(digest, w, device, a))
    ensures Held(WorldStep(digest, w, device, a).history, w.history)
    ensures forall other ::
              Advances(ReplicaOf(w, other).present,
                       ReplicaOf(WorldStep(digest, w, device, a), other).present)
  {
    hide Step, CollisionFree, GoodHistory, GoodReplica, Advances;
    var r := ReplicaOf(w, device);
    assert GoodReplica(w.history, r) by { EmptyIsGood(w.history); }
    var next := WorldStep(digest, w, device, a);
    StepGood(digest, w.history, r, a);
    forall other | other in next.replicas ensures GoodReplica(next.history, next.replicas[other]) {
      if other != device {
        HistoryGrows(w.history, next.history, w.replicas[other]);
      }
    }
    forall other ensures Advances(ReplicaOf(w, other).present, ReplicaOf(next, other).present) {
      if other != device {
        GrowthAdvances(ReplicaOf(w, other).present, ReplicaOf(next, other).present);
      }
    }
  }

  lemma EmptyIsGood(history: Directory)
    ensures GoodReplica(history, EmptyReplica)
  {
  }

  lemma AdvancesTransitive(a: Directory, b: Directory, c: Directory)
    requires Advances(a, b) && Advances(b, c)
    requires forall id | id in a && id in b :: a[id] == b[id]
    ensures Advances(a, c)
  {
  }

  /** Every run, from every good world, stays good, only extends the history, and advances
  every replica. */
  lemma {:induction false} RunGood(digest: Digest, w: World, steps: seq<(nat, Action)>)
    requires CollisionFree(digest) && Good(digest, w)
    ensures Good(digest, Run(digest, w, steps))
    ensures Held(Run(digest, w, steps).history, w.history)
    ensures forall device ::
              Advances(ReplicaOf(w, device).present,
                       ReplicaOf(Run(digest, w, steps), device).present)
    decreases |steps|
  {
    hide WorldStep, CollisionFree, GoodHistory, GoodCollector, GoodClient, Advances;
    if steps == [] {
      forall device ensures Advances(ReplicaOf(w, device).present, ReplicaOf(w, device).present) {
        GrowthAdvances(ReplicaOf(w, device).present, ReplicaOf(w, device).present);
      }
    } else {
      var next := WorldStep(digest, w, steps[0].0, steps[0].1);
      WorldStepGood(digest, w, steps[0].0, steps[0].1);
      RunGood(digest, next, steps[1..]);
      var last := Run(digest, w, steps);
      forall device
        ensures Advances(ReplicaOf(w, device).present, ReplicaOf(last, device).present)
      {
        var a, b := ReplicaOf(w, device).present, ReplicaOf(next, device).present;
        assert Held(w.history, a) && Held(next.history, b);
        AdvancesTransitive(a, b, ReplicaOf(last, device).present);
      }
    }
  }

  lemma FreshIsGood(digest: Digest)
    ensures Good(digest, Fresh)
  {
  }

  /** The change number a client can see: 0 for an empty folder, the head's revision when
  there is one head, none when the folder is conflicted. */
  ghost function ChangeNumber(d: Directory): Option<nat> {
    ViewOf(d).changeNumber
  }

  /** Change numbers are sound.  In every run of every set of devices, the number one device
  shows never decreases, and the same number always means the same manifest. */
  lemma ChangeNumbersSound(
    digest: Digest, w: World, steps: seq<(nat, Action)>, device: nat)
    requires CollisionFree(digest) && Good(digest, w)
    requires ChangeNumber(ReplicaOf(w, device).present).Some?
    requires ChangeNumber(ReplicaOf(Run(digest, w, steps), device).present).Some?
    ensures var earlier := ReplicaOf(w, device).present;
            var later := ReplicaOf(Run(digest, w, steps), device).present;
            var n, n' := ChangeNumber(earlier).value, ChangeNumber(later).value;
            n <= n' && (n == n' ==> Heads(earlier) == Heads(later)
                                    && Current(earlier) == Current(later))
  {
    var last := Run(digest, w, steps);
    var earlier, later := ReplicaOf(w, device).present, ReplicaOf(last, device).present;
    RunGood(digest, w, steps);
    EmptyIsGood(w.history);
    EmptyIsGood(last.history);
    assert Held(last.history, earlier) && Held(last.history, later);
    SameNumberSameHead(digest, last.history, earlier, later);
  }

  lemma SameNumberSameHead(
    digest: Digest, history: Directory, earlier: Directory, later: Directory)
    requires GoodHistory(digest, history) && Held(history, earlier) && Held(history, later)
    requires Advances(earlier, later) && |Heads(earlier)| <= 1 && |Heads(later)| <= 1
    ensures CurrentRevision(earlier) <= CurrentRevision(later)
    ensures CurrentRevision(earlier) == CurrentRevision(later) ==>
              Heads(earlier) == Heads(later) && Current(earlier) == Current(later)
  {
    RevisionIsMax(digest, history, earlier);
    RevisionIsMax(digest, history, later);
    NoHeadsIffEmpty(digest, history, earlier);
    NoHeadsIffEmpty(digest, history, later);
    if MaxRevision(earlier) == MaxRevision(later) && earlier != map[] {
      var was, now := TheOnly(Heads(earlier)), TheOnly(Heads(later));
      SingleHead(digest, history, earlier, was);
      SingleHead(digest, history, later, now);
      assert was in later && later[was] == earlier[was];
      assert was == now;
    }
  }

  /** A client that applies every answer it gets holds exactly the current files after every
  answered poll of every run, whether the answer was a full list or an empty delta. */
  lemma ClientAgrees(digest: Digest, steps: seq<(nat, Action)>, device: nat)
    requires CollisionFree(digest)
    requires |Heads(ReplicaOf(Run(digest, Fresh, steps), device).present)| <= 1
    ensures var r := ReplicaOf(Run(digest, Fresh, steps), device);
            && ChangesSince(r.present, r.client.synced).Ok?
            && PollStep(r).client == Client(CurrentRevision(r.present), CurrentFiles(r.present))
  {
    FreshIsGood(digest);
    RunGood(digest, Fresh, steps);
    var w := Run(digest, Fresh, steps);
    EmptyIsGood(w.history);
    PollAgrees(digest, w.history, ReplicaOf(w, device));
  }

  /** Of all operations begun at the same heads, at most one publishes: once a call has
  published over heads `P`, the device's heads are never `P` again. */
  lemma HeadsNeverReturn(
    digest: Digest, w: World, device: nat, call: Call, steps: seq<(nat, Action)>)
    requires CollisionFree(digest) && Good(digest, w)
    requires ReplicaOf(WorldStep(digest, w, device, Local(call)), device).present
             != ReplicaOf(w, device).present
    ensures var next := WorldStep(digest, w, device, Local(call));
            Heads(ReplicaOf(Run(digest, next, steps), device).present)
            != Heads(ReplicaOf(w, device).present)
  {
    hide CallStep, CollisionFree;
    var next := WorldStep(digest, w, device, Local(call));
    var before, after := ReplicaOf(w, device), ReplicaOf(next, device);
    EmptyIsGood(w.history);
    WorldStepGood(digest, w, device, Local(call));
    CallPublishes(digest, w.history, before, call);
    RunGood(digest, next, steps);
    var last := Run(digest, next, steps);
    var final := ReplicaOf(last, device).present;
    EmptyIsGood(last.history);
    NoHeadsIffEmpty(digest, last.history, final);
    var top := MaxRevisionAtHead(digest, last.history, final);
    assert Held(last.history, before.present);
  }

  /** An operation whose expected heads are gone for good is refused. */
  lemma AtMostOnePublishes(
    digest: Digest, w: World, device: nat, call: Call, steps: seq<(nat, Action)>, late: Call)
    requires CollisionFree(digest) && Good(digest, w)
    requires ReplicaOf(WorldStep(digest, w, device, Local(call)), device).present
             != ReplicaOf(w, device).present
    requires var r := ReplicaOf(Run(digest, WorldStep(digest, w, device, Local(call)), steps), device);
             late.Commit? && late.op in r.operations
             && r.operations[late.op].expectedHeads == Heads(ReplicaOf(w, device).present)
    ensures var r := ReplicaOf(Run(digest, WorldStep(digest, w, device, Local(call)), steps), device);
            CallStep(digest, r, late).present == r.present
  {
    hide WorldStep, Run, CallStep, Good, CollisionFree, Heads;
    HeadsNeverReturn(digest, w, device, call, steps);
    var last := Run(digest, WorldStep(digest, w, device, Local(call)), steps);
    LateRefused(digest, ReplicaOf(last, device), late);
  }

  lemma LateRefused(digest: Digest, r: Replica, late: Call)
    requires late.Commit? && late.op in r.operations
    requires r.operations[late.op].expectedHeads != Heads(r.present)
    ensures CallStep(digest, r, late).present == r.present
  {
    hide Heads, MergedFiles, NewManifest, BlobsOf, Pruned, ValidSave;
  }

  // An operation is closed by a commit that succeeds and by an abort.

  ghost predicate Closed(r: Replica, op: nat) {
    op in r.operations && r.operations[op].closed
  }

  /** Nothing opens a closed operation, adds to it, or publishes it. */
  lemma ClosedCall(digest: Digest, r: Replica, op: nat, c: Call)
    requires Closed(r, op)
    ensures var after := CallStep(digest, r, c);
            && Closed(after, op) && after.operations[op] == r.operations[op]
            && (!c.Begin? && c.op == op ==> after.present == r.present)
  {
    hide BeginOperation, MergedFiles, Pruned, BlobsOf, ValidSave, NewManifest, Heads;
  }

  lemma ClosedStep(digest: Digest, history: Directory, r: Replica, op: nat, a: Action)
    requires Closed(r, op)
    ensures Closed(Step(digest, history, r, a), op)
    ensures Step(digest, history, r, a).operations[op] == r.operations[op]
  {
    hide CallStep, Retained, Candidates, ChangesSince;
    if a.Local? { ClosedCall(digest, r, op, a.call); }
  }

  lemma {:induction false} ClosedForGood(
    digest: Digest, w: World, device: nat, op: nat, steps: seq<(nat, Action)>)
    requires Closed(ReplicaOf(w, device), op)
    ensures var r := ReplicaOf(Run(digest, w, steps), device);
            Closed(r, op) && r.operations[op] == ReplicaOf(w, device).operations[op]
    decreases |steps|
  {
    hide Step;
    if steps != [] {
      if steps[0].0 == device { ClosedStep(digest, w.history, ReplicaOf(w, device), op, steps[0].1); }
      ClosedForGood(digest, WorldStep(digest, w, steps[0].0, steps[0].1), device, op, steps[1..]);
    }
  }

  /** After an abort, in every run, no commit of the operation changes the folder and no file can
  be staged in it. */
  lemma AbortIsFinal(digest: Digest, w: World, device: nat, op: nat, steps: seq<(nat, Action)>,
                     late: Call, blob: Blob)
    requires op in ReplicaOf(w, device).operations && late.op == op && !late.Begin?
    ensures var w' := WorldStep(digest, w, device, Local(Abort(op)));
            var r := ReplicaOf(Run(digest, w', steps), device);
            && ReplicaOf(w', device).present == ReplicaOf(w, device).present
            && op in r.operations && StageFile(r.operations[op], blob).Err?
            && CallStep(digest, r, late).present == r.present
            && CallStep(digest, r, late).operations[op] == r.operations[op]
  {
    var w' := WorldStep(digest, w, device, Local(Abort(op)));
    assert Closed(ReplicaOf(w', device), op);
    hide WorldStep, CallStep, Run;
    ClosedForGood(digest, w', device, op, steps);
    ClosedCall(digest, ReplicaOf(Run(digest, w', steps), device), op, late);
  }

  /** No operation publishes twice, in any run. */
  lemma PublishesOnce(digest: Digest, w: World, device: nat, call: Call,
                      steps: seq<(nat, Action)>, late: Call)
    requires call.Commit? && late.op == call.op && !late.Begin?
    requires ReplicaOf(WorldStep(digest, w, device, Local(call)), device).present
             != ReplicaOf(w, device).present
    ensures var r := ReplicaOf(Run(digest, WorldStep(digest, w, device, Local(call)), steps), device);
            CallStep(digest, r, late).present == r.present
  {
    var w' := WorldStep(digest, w, device, Local(call));
    PublishingCloses(digest, ReplicaOf(w, device), call);
    assert Closed(ReplicaOf(w', device), call.op);
    hide WorldStep, CallStep, Run;
    ClosedForGood(digest, w', device, call.op, steps);
    ClosedCall(digest, ReplicaOf(Run(digest, w', steps), device), call.op, late);
  }

  lemma PublishingCloses(digest: Digest, r: Replica, call: Call)
    requires call.Commit? && CallStep(digest, r, call).present != r.present
    ensures Closed(CallStep(digest, r, call), call.op)
  {
    hide MergedFiles, Pruned, BlobsOf, ValidSave, NewManifest, Heads;
  }

  /** Nothing a device ever held is lost from sight: in every later state it is an ancestor of
  one of that device's heads, through manifests that were really published, even if garbage
  collection has removed it since. */
  lemma {:induction false} NothingHidden(
    digest: Digest, w: World, steps: seq<(nat, Action)>, device: nat, id: Id) returns (head: Id)
    requires CollisionFree(digest) && Good(digest, w) && id in ReplicaOf(w, device).present
    ensures var last := Run(digest, w, steps);
            head in Heads(ReplicaOf(last, device).present) && Reaches(last.history, id, head)
    decreases |steps|
  {
    hide WorldStep, CollisionFree, GoodCollector, GoodClient, Advances;
    EmptyIsGood(w.history);
    var first := ReachesHead(digest, w.history, ReplicaOf(w, device).present, id);
    RunGood(digest, w, steps);
    var last := Run(digest, w, steps);
    ReachesWider(ReplicaOf(w, device).present, last.history, id, first);
    if steps == [] {
      head := first;
    } else {
      var next := WorldStep(digest, w, steps[0].0, steps[0].1);
      WorldStepGood(digest, w, steps[0].0, steps[0].1);
      HeadsStay(digest, w, steps[0].0, steps[0].1, device, first);
      head := NothingHidden(digest, next, steps[1..], device, first);
      ReachesTransitive(last.history, id, first, head);
    }
  }

  /** No step removes a head. */
  lemma HeadsStay(digest: Digest, w: World, actor: nat, a: Action, device: nat, head: Id)
    requires CollisionFree(digest) && Good(digest, w)
    requires head in Heads(ReplicaOf(w, device).present)
    ensures head in ReplicaOf(WorldStep(digest, w, actor, a), device).present
  {
    hide CallStep, CollisionFree, GoodHistory, GoodClient;
    var r := ReplicaOf(w, device);
    EmptyIsGood(w.history);
    if actor == device {
      match a
      case Local(call) => CallPublishes(digest, w.history, r, call);
      case Collect(Sweep) =>
        if r.collector.Inspected?
           && r.present.Keys == r.collector.retained + r.collector.candidates {
          SweepRemovesCandidates(w.history, r);
        }
      case _ =>
    }
  }

  /** A report made before a publish is refused after it, whatever happened in between. */
  lemma {:induction false} StaleReportRefused(
    digest: Digest, w: World, steps: seq<(nat, Action)>, device: nat, known: set<Id>, id: Id)
    requires CollisionFree(digest) && Good(digest, w)
    requires var r := ReplicaOf(w, device);
             r.collector.Inspected? && r.collector.retained + r.collector.candidates == known
    requires id in ReplicaOf(w, device).present && id !in known
    requires forall i | 0 <= i < |steps| && steps[i].0 == device :: !steps[i].1.Collect?
    ensures var r := ReplicaOf(Run(digest, w, steps), device);
            CollectStep(Run(digest, w, steps).history, r, Sweep) == r.(collector := Idle)
    decreases |steps|
  {
    hide CollisionFree, GoodHistory, GoodCollector, GoodClient, Advances;
    if steps != [] {
      var next := WorldStep(digest, w, steps[0].0, steps[0].1);
      WorldStepGood(digest, w, steps[0].0, steps[0].1);
      assert steps[0].0 == device ==> !steps[0].1.Collect?;
      NoSweepNoLoss(digest, w, steps[0].0, steps[0].1, device);
      assert forall i | 0 <= i < |steps[1..]| :: steps[1..][i] == steps[i + 1];
      StaleReportRefused(digest, next, steps[1..], device, known, id);
    }
  }

  lemma NoSweepNoLoss(digest: Digest, w: World, actor: nat, a: Action, device: nat)
    requires CollisionFree(digest) && Good(digest, w)
    requires actor == device ==> !a.Collect?
    ensures var r, after := ReplicaOf(w, device), ReplicaOf(WorldStep(digest, w, actor, a), device);
            after.collector == r.collector && r.present.Keys <= after.present.Keys
  {
    hide CallStep, CollisionFree, GoodHistory, GoodCollector, GoodClient;
    var r := ReplicaOf(w, device);
    EmptyIsGood(w.history);
    if actor == device && a.Local? {
      CallPublishes(digest, w.history, r, a.call);
      CallFrame(digest, r, a.call);
    }
  }

  /** An applied sweep is invisible: the view, the current manifest (hence reads and quota),
  every change list, and the fate of every operation begun before it are the same after. */
  lemma SweepInvisible(
    digest: Digest, history: Directory, r: Replica, since: nat, head: Id, op: Operation,
    files: Files, author: Identity, now: nat)
    requires CollisionFree(digest) && GoodHistory(digest, history) && GoodReplica(history, r)
    requires r.collector.Inspected?
    ensures var after := CollectStep(history, r, Sweep);
            && after.operations == r.operations && after.client == r.client
            && ViewOf(after.present) == ViewOf(r.present)
            && Current(after.present) == Current(r.present)
            && ChangesSince(after.present, since) == ChangesSince(r.present, since)
            && ChangesFromHead(after.present, head, since) == ChangesFromHead(r.present, head, since)
            && Decide(digest, after.present, op, files, author, now)
               == Decide(digest, r.present, op, files, author, now)
  {
    hide ViewOf, Current, ChangesSince, ChangesFromHead, Decide, GoodHistory, CollisionFree;
    hide Swept, Alike, GoodClient, GoodOperations;
    var after := CollectStep(history, r, Sweep);
    if after.present != r.present {
      SweepRemovesCandidates(history, r);
      SweepIsAlike(digest, history, r.present);
      AlikeViews(after.present, r.present, since, head);
      AlikeCommits(digest, history, after.present, r.present, op, files, author, now);
    }
  }

  /** Devices that save over the same parents without knowing of each other are never merged
  silently: in every run, a folder holding both saves and no child of either is conflicted. */
  lemma ConcurrentSavesVisible(
    digest: Digest, steps: seq<(nat, Action)>, device: nat, a: Id, b: Id)
    requires CollisionFree(digest)
    requires var d := ReplicaOf(Run(digest, Fresh, steps), device).present;
             && a in d && b in d && a != b && d[a].parents == d[b].parents
             && forall c | c in d && c != a && c != b :: a !in d[c].parents && b !in d[c].parents
    ensures var d := ReplicaOf(Run(digest, Fresh, steps), device).present;
            {a, b} <= Heads(d) && ChangeNumber(d) == None
  {
    hide Run, GoodCollector, GoodClient, GoodOperations, Advances, Heads;
    FreshIsGood(digest);
    RunGood(digest, Fresh, steps);
    var w := Run(digest, Fresh, steps);
    EmptyIsGood(w.history);
    ConcurrentSavesConflict(digest, w.history, ReplicaOf(w, device).present, a, b);
  }
}
