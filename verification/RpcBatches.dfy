/** The upload batches of the local cloud: a client verifies a view, opens a batch, uploads files
into it and completes it, which publishes one manifest. */
module RpcBatches {
  import opened Wrappers
  import opened Manifests
  import opened StoreOperations
  import FolderStore

  type App = nat
  type BatchId = nat

  datatype ConflictState = ConflictState(
    heads: seq<Id>, localHead: Option<Id>, remoteHead: Option<Id>)

  datatype KeepLocal = KeepLocal(heads: seq<Id>, selected: Id)

  /** What the client last verified about an app. */
  datatype AppState = AppState(
    identity: Identity, verifiedHeads: seq<Id>, conflict: Option<ConflictState>,
    keepLocal: Option<KeepLocal>)

  /** `begun` holds the paths with an open transfer, `arrived` those whose bytes came. */
  datatype Batch = Batch(
    app: App, uploads: set<Path>, deletes: set<Path>, begun: set<Path>,
    arrived: map<Path, StoredFile>, staged: map<Path, StoredFile>, op: Operation,
    identity: Identity)

  datatype Adapter = Adapter(
    active: map<App, BatchId>, batches: map<BatchId, Batch>, apps: map<App, AppState>,
    nextBatch: BatchId)

  // ----- Views -----------------------------------------------------------------------------

  function AuthoredBy(d: Directory, client: nat): set<Id> {
    set id | id in Heads(d) && d[id].author.clientId == client
  }

  /** Two heads of which the client wrote one can be settled by its own dialog. */
  function ConflictFromView(d: Directory, client: nat): (r: Option<ConflictState>)
    ensures r.Some? <==> |Heads(d)| > 1
    ensures r.Some? ==> r.value.heads == HeadIds(d)
  {
    var heads, local := Heads(d), AuthoredBy(d, client);
    if |heads| <= 1 then None
    else if |heads| == 2 && |local| == 1 then
      var mine := TheOnly(local);
      assert mine in local && mine in heads && |heads - {mine}| == 1;
      Some(ConflictState(HeadIds(d), Some(mine), Some(TheOnly(heads - {mine}))))
    else
      Some(ConflictState(HeadIds(d), None, None))
  }

  /** Sides are named together, and then the local one is the client's, the remote one is not,
  and there is no third head. */
  lemma NamedSidesAreRight(d: Directory, client: nat)
    requires |Heads(d)| > 1
    ensures var c := ConflictFromView(d, client).value;
            && (c.localHead.Some? <==> c.remoteHead.Some?)
            && (c.localHead.Some? ==> LocalAndRemote(d, client, c))
  {
    hide HeadIds, Heads;
    var c := ConflictFromView(d, client).value;
    if c.localHead.Some? {
      var mine := c.localHead.value;
      assert AuthoredBy(d, client) == {mine} && mine in AuthoredBy(d, client);
      assert Heads(d) - {mine} == {c.remoteHead.value};
      assert c.remoteHead.value in Heads(d) && c.remoteHead.value !in AuthoredBy(d, client);
      assert mine in Heads(d) && Heads(d) == (Heads(d) - {mine}) + {mine};
    }
  }

  /** Two heads of which the client wrote one always have their sides named. */
  lemma TwoSidesAreNamed(d: Directory, client: nat, mine: Id, other: Id)
    requires Heads(d) == {mine, other}
    requires d[mine].author.clientId == client && d[other].author.clientId != client
    ensures ConflictFromView(d, client)
            == Some(ConflictState(HeadIds(d), Some(mine), Some(other)))
  {
    hide HeadIds;
    OneAuthored(d, client, mine, other);
    assert Heads(d) - {mine} == {other};
  }

  lemma OneAuthored(d: Directory, client: nat, mine: Id, other: Id)
    requires Heads(d) == {mine, other}
    requires d[mine].author.clientId == client && d[other].author.clientId != client
    ensures |Heads(d)| == 2 && AuthoredBy(d, client) == {mine}
  {
    assert mine != other;
  }

  /** The heads are one written by the client and one written by another device. */
  ghost predicate LocalAndRemote(d: Directory, client: nat, c: ConflictState) {
    && c.localHead.Some? && c.remoteHead.Some? && c.localHead != c.remoteHead
    && Heads(d) == {c.localHead.value, c.remoteHead.value}
    && d[c.localHead.value].author.clientId == client
    && d[c.remoteHead.value].author.clientId != client
  }

  // ----- Verifying a view --------------------------------------------------------------------

  function Changelist(s: Adapter, d: Directory, app: App, identity: Identity): Adapter {
    s.(apps := s.apps[app := AppState(identity, HeadIds(d),
                                      ConflictFromView(d, identity.clientId), None)])
  }

  function Launch(s: Adapter, d: Directory, app: App, identity: Identity): Adapter {
    var heads := HeadIds(d);
    var keep := if app in s.apps && s.apps[app].verifiedHeads == heads then s.apps[app].keepLocal
                else None;
    s.(apps := s.apps[app := AppState(identity, heads, ConflictFromView(d, identity.clientId), keep)])
  }

  /** Suspending, resuming and leaving a session only change the identity. */
  function UpdateIdentity(s: Adapter, app: App, identity: Identity): Adapter {
    if app !in s.apps then s
    else s.(apps := s.apps[app := s.apps[app].(identity := identity)])
  }

  /** The user keeps the local side: the next batch will be based on it. */
  function ChooseLocal(s: Adapter, d: Directory, app: App): Result<Adapter> {
    if app !in s.apps || s.apps[app].conflict.None? then Err(Permanent)
    else
      var conflict := s.apps[app].conflict.value;
      if conflict.heads != HeadIds(d) || conflict.localHead.None? then Err(Permanent)
      else
        var keep := KeepLocal(conflict.heads, conflict.localHead.value);
        Ok(s.(apps := s.apps[app := s.apps[app].(keepLocal := Some(keep))]))
  }

  /** The user takes the remote side: publish it over all heads at once. */
  ghost function ChooseRemote(
    digest: Digest, s: Adapter, d: Directory, app: App, identity: Identity, now: nat)
    : Result<(Adapter, Manifest)>
  {
    if app !in s.apps || s.apps[app].conflict.None? then Err(Permanent)
    else
      var conflict := s.apps[app].conflict.value;
      if conflict.heads != HeadIds(d) || conflict.remoteHead.None? then Err(Permanent)
      else
        var begun := BeginOperation(d, [conflict.remoteHead.value], Some(conflict.heads), 0);
        if begun.Err? then Err(begun.error)
        else
          var what := Decide(digest, d, begun.value, begun.value.originalFiles, identity, now);
          if !what.Publish? then Err(Permanent)
          else
            var heads := HeadIds(d[digest(what.manifest) := what.manifest]);
            Ok((s.(apps := s.apps[app := AppState(identity, heads, None, None)]), what.manifest))
  }

  // ----- Batches -------------------------------------------------------------------------------

  /** The heads and the base of the batch an app may open now, or the refusal. */
  function BatchBase(s: Adapter, d: Directory, app: App, identity: Identity)
    : Result<(seq<Id>, Option<seq<Id>>)>
  {
    if app !in s.apps || s.apps[app].identity.clientId != identity.clientId then Err(Permanent)
    else match s.apps[app].keepLocal
      case Some(keep) =>
        if HeadIds(d) != keep.heads then Err(Permanent) else Ok(([keep.selected], Some(keep.heads)))
      case None =>
        if |Heads(d)| > 1 || HeadIds(d) != s.apps[app].verifiedHeads then Err(Permanent)
        else Ok((HeadIds(d), None))
  }

  function CloseActive(s: Adapter, app: App): Adapter {
    if app in s.active
    then s.(active := s.active - {app}, batches := s.batches - {s.active[app]}) else s
  }

  /** An abort that fails has closed the operation already; its batch stays in the table but is no
  longer active. */
  function Orphaned(s: Adapter, app: App): Adapter
    requires app in s.active && s.active[app] in s.batches
  {
    var b := s.batches[s.active[app]];
    s.(active := s.active - {app},
       batches := s.batches[s.active[app] := b.(op := AbortOperation(b.op))])
  }

  function OpenBatch(s: Adapter, app: App, batch: Batch): Adapter {
    Adapter(s.active[app := s.nextBatch], s.batches[s.nextBatch := batch], s.apps, s.nextBatch + 1)
  }

  /** Opening a batch aborts the app's previous one; when that fails the previous batch is
  orphaned. */
  function BeginBatch(
    s: Adapter, d: Directory, app: App, identity: Identity, uploads: set<Path>,
    deletes: set<Path>, abortOk: bool): (Result<BatchId>, Adapter)
  {
    var base := BatchBase(s, d, app, identity);
    if base.Err? then (Err(base.error), s)
    else if app in s.active && s.active[app] in s.batches && !abortOk then
      (Err(Permanent), Orphaned(s, app))
    else
      var begun := BeginOperation(d, base.value.0, base.value.1, 0);
      if begun.Err? then (Err(begun.error), CloseActive(s, app))
      else
        var batch := Batch(app, uploads, deletes, {}, map[], map[], begun.value, identity);
        (Ok(s.nextBatch), OpenBatch(CloseActive(s, app), app, batch))
  }

  function FindBatch(s: Adapter, app: App, requested: Option<BatchId>): Result<BatchId> {
    if requested.None? && app !in s.active then Err(Permanent)
    else
      var id := if requested.Some? then requested.value else s.active[app];
      if id !in s.batches || s.batches[id].app != app then Err(Permanent) else Ok(id)
  }

  function BeginFile(s: Adapter, app: App, requested: Option<BatchId>, path: Path): Result<Adapter> {
    var found := FindBatch(s, app, requested);
    if found.Err? then Err(found.error)
    else
      var b := s.batches[found.value];
      if path !in b.uploads then Err(Permanent)
      else Ok(s.(batches := s.batches[found.value :=
                   b.(begun := b.begun + {path}, arrived := b.arrived - {path})]))
  }

  /** The bytes of a begun upload arrive and are staged as a blob. */
  function Arrive(s: Adapter, id: BatchId, path: Path, file: StoredFile): Adapter {
    if id !in s.batches || path !in s.batches[id].begun then s
    else
      var b := s.batches[id];
      var staged := StageFile(b.op, (file.sha1, file.rawSize));
      if staged.Err? then s
      else s.(batches := s.batches[id := b.(op := staged.value, arrived := b.arrived[path := file])])
  }

  /** The client commits an upload; it counts only when it succeeded and the bytes are there. */
  function CommitFile(s: Adapter, app: App, path: Path, succeeded: bool): (Result<bool>, Adapter) {
    var found := FindBatch(s, app, None);
    if found.Err? then (Err(found.error), s)
    else
      var b := s.batches[found.value];
      if path !in b.begun then (Err(Permanent), s)
      else if !succeeded then (Ok(false), s)
      else if path !in b.arrived then (Ok(false), s)
      else
        (Ok(true), s.(batches := s.batches[found.value :=
           b.(staged := b.staged[path := b.arrived[path]], arrived := b.arrived - {path})]))
  }

  /** The files a batch leaves: the base without the deletes, then the uploads. */
  function BatchFiles(b: Batch): Files {
    (b.op.originalFiles - b.deletes) + b.staged
  }

  ghost function CompleteBatch(
    digest: Digest, s: Adapter, d: Directory, app: App, requested: Option<BatchId>,
    committed: bool, now: nat): (Result<Option<Manifest>>, Adapter)
  {
    var found := FindBatch(s, app, requested);
    if found.Err? then (Err(found.error), s)
    else
      var id := found.value;
      var b := s.batches[id];
      var closed := s.(active := s.active - {app}, batches := s.batches - {id});
      if !committed then (Ok(None), closed)
      else if !(b.uploads <= b.staged.Keys) then (Err(Permanent), s)
      else
        var what := Decide(digest, d, b.op, BatchFiles(b), b.identity, now);
        if what.Refuse? then
          (Err(what.error),
           s.(batches := s.batches[id := b.(op := OperationAfter(d, b.op, BatchFiles(b), what))]))
        else
          var after := DirectoryAfter(digest, d, what);
          var refreshed :=
            if app in s.apps
            then s.apps[app := AppState(b.identity, HeadIds(after),
                                        ConflictFromView(after, b.identity.clientId), None)]
            else s.apps;
          (Ok(if what.Publish? then Some(what.manifest) else None), closed.(apps := refreshed))
  }

  // ----- Runs ------------------------------------------------------------------------------------

  /** What the client had verified when a batch began, the store then, and the head kept as the
  local side, if the batch resolves a conflict. */
  datatype Opening = Opening(
    app: App, verified: seq<Id>, at: Directory, kept: Option<Id>, uploads: set<Path>,
    deletes: set<Path>)

  /** The files a batch starts from. */
  function BaseOf(o: Opening): Files {
    if o.kept.None? then CurrentFiles(o.at)
    else if o.kept.value in o.at then o.at[o.kept.value].files else map[]
  }

  /** A manifest that completing a batch published. */
  datatype Publication = Publication(
    batch: BatchId, before: Directory, manifest: Manifest, staged: map<Path, StoredFile>)

  /** `arrivals` are the files whose bytes came for a begun upload of a batch. */
  datatype World = World(
    s: Adapter, stores: map<App, Directory>, openings: map<BatchId, Opening>,
    published: seq<Publication>, arrivals: set<(BatchId, Path, StoredFile)>)

  const Start := World(Adapter(map[], map[], map[], 0), map[], map[], [], {})

  function StoreOf(w: World, app: App): Directory {
    if app in w.stores then w.stores[app] else map[]
  }

  datatype Step =
    | Verifies(app: App, identity: Identity)
    | Launches(app: App, identity: Identity)
    | Identifies(app: App, identity: Identity)
    | KeepsLocal(app: App)
    | TakesRemote(app: App, identity: Identity, now: nat)
    | Begins(app: App, identity: Identity, uploads: set<Path>, deletes: set<Path>, abortOk: bool)
    | BeginsFile(app: App, requested: Option<BatchId>, path: Path)
    | Arrives(id: BatchId, path: Path, file: StoredFile)
    | CommitsFile(app: App, path: Path, succeeded: bool)
    | Completes(app: App, requested: Option<BatchId>, committed: bool, now: nat)
    | ChangesScope
    | StoreChanges(app: App, d: Directory)

  ghost function BeginStep(
    w: World, app: App, identity: Identity, uploads: set<Path>, deletes: set<Path>, abortOk: bool)
    : World
  {
    var d := StoreOf(w, app);
    var (r, s) := BeginBatch(w.s, d, app, identity, uploads, deletes, abortOk);
    if r.Err? then w.(s := s)
    else
      var a := w.s.apps[app];
      var kept := if a.keepLocal.Some? then Some(a.keepLocal.value.selected) else None;
      w.(s := s, openings := w.openings[r.value :=
           Opening(app, a.verifiedHeads, d, kept, uploads, deletes)])
  }

  ghost function CompleteStep(
    digest: Digest, w: World, app: App, requested: Option<BatchId>, committed: bool, now: nat)
    : World
  {
    var d := StoreOf(w, app);
    var (r, s) := CompleteBatch(digest, w.s, d, app, requested, committed, now);
    if r.Err? || r.value.None? then w.(s := s)
    else
      var id := FindBatch(w.s, app, requested).value;
      w.(s := s, stores := w.stores[app := d[digest(r.value.value) := r.value.value]],
         published := w.published + [Publication(id, d, r.value.value, w.s.batches[id].staged)])
  }

  ghost function Next(digest: Digest, w: World, step: Step): World {
    match step
    case Verifies(app, identity) => w.(s := Changelist(w.s, StoreOf(w, app), app, identity))
    case Launches(app, identity) => w.(s := Launch(w.s, StoreOf(w, app), app, identity))
    case Identifies(app, identity) => w.(s := UpdateIdentity(w.s, app, identity))
    case KeepsLocal(app) =>
      var r := ChooseLocal(w.s, StoreOf(w, app), app);
      if r.Ok? then w.(s := r.value) else w
    case TakesRemote(app, identity, now) =>
      var d := StoreOf(w, app);
      var r := ChooseRemote(digest, w.s, d, app, identity, now);
      if r.Ok? then w.(s := r.value.0, stores := w.stores[app := d[digest(r.value.1) := r.value.1]])
      else w
    case Begins(app, identity, uploads, deletes, abortOk) =>
      BeginStep(w, app, identity, uploads, deletes, abortOk)
    case BeginsFile(app, requested, path) =>
      var r := BeginFile(w.s, app, requested, path);
      if r.Ok? then w.(s := r.value) else w
    case Arrives(id, path, file) =>
      if id in w.s.batches && path in w.s.batches[id].begun && !w.s.batches[id].op.closed
      then w.(s := Arrive(w.s, id, path, file), arrivals := w.arrivals + {(id, path, file)})
      else w
    case CommitsFile(app, path, succeeded) => w.(s := CommitFile(w.s, app, path, succeeded).1)
    case Completes(app, requested, committed, now) =>
      CompleteStep(digest, w, app, requested, committed, now)
    case ChangesScope => w.(s := Adapter(map[], map[], map[], w.s.nextBatch))
    case StoreChanges(app, d) => w.(stores := w.stores[app := d])
  }

  ghost function Run(digest: Digest, w: World, steps: seq<Step>): World
    decreases |steps|
  {
    if steps == [] then w else Run(digest, Next(digest, w, steps[0]), steps[1..])
  }

  // ----- One batch per app -------------------------------------------------------------------------

  /** The active batches and the batch table agree one to one. */
  ghost predicate OneToOne(s: Adapter) {
    && (forall app | app in s.active ::
          s.active[app] in s.batches && s.batches[s.active[app]].app == app)
    && (forall id | id in s.batches ::
          s.batches[id].app in s.active && s.active[s.batches[id].app] == id)
  }

  ghost predicate Fresh(s: Adapter) {
    forall id | id in s.batches :: id < s.nextBatch
  }

  lemma ClosedOne(s: Adapter, app: App)
    requires OneToOne(s) && Fresh(s)
    ensures var t := CloseActive(s, app); OneToOne(t) && Fresh(t) && app !in t.active
    ensures app in s.active ==> s.active[app] in s.batches && !OneToOne(Orphaned(s, app))
  {
    if app in s.active {
      var orphaned := Orphaned(s, app);
      assert s.active[app] in orphaned.batches && orphaned.batches[s.active[app]].app == app;
    }
  }

  lemma OpenedOne(s: Adapter, app: App, batch: Batch)
    requires OneToOne(s) && Fresh(s) && app !in s.active && batch.app == app
    ensures OneToOne(OpenBatch(s, app, batch)) && Fresh(OpenBatch(s, app, batch))
  {
  }

  /** Opening a batch keeps the tables one to one exactly when it does not fail to abort the
  batch it replaces. */
  lemma BeginKeepsOneToOneIff(
    s: Adapter, d: Directory, app: App, identity: Identity, uploads: set<Path>,
    deletes: set<Path>, abortOk: bool)
    requires OneToOne(s) && Fresh(s)
    ensures OneToOne(BeginBatch(s, d, app, identity, uploads, deletes, abortOk).1) <==>
              BatchBase(s, d, app, identity).Err? || app !in s.active || abortOk
  {
    ClosedOne(s, app);
    var base := BatchBase(s, d, app, identity);
    hide OneToOne, Fresh, CloseActive, OpenBatch, Orphaned, BatchBase, BeginOperation;
    if base.Ok? {
      var begun := BeginOperation(d, base.value.0, base.value.1, 0);
      if begun.Ok? {
        OpenedOne(CloseActive(s, app), app,
                  Batch(app, uploads, deletes, {}, map[], map[], begun.value, identity));
      }
    }
  }

  lemma CompleteKeepsOneToOne(
    digest: Digest, s: Adapter, d: Directory, app: App, requested: Option<BatchId>,
    committed: bool, now: nat)
    requires OneToOne(s)
    ensures OneToOne(CompleteBatch(digest, s, d, app, requested, committed, now).1)
  {
    hide Decide, OperationAfter, DirectoryAfter, ConflictFromView;
  }

  /** Changing a batch within its app keeps the tables one to one. */
  lemma ChangedOne(s: Adapter, id: BatchId, b: Batch)
    requires OneToOne(s) && id in s.batches && b.app == s.batches[id].app
    ensures OneToOne(s.(batches := s.batches[id := b]))
  {
  }

  lemma OthersKeepOneToOne(digest: Digest, w: World, step: Step)
    requires OneToOne(w.s) && !step.Begins? && !step.Completes?
    ensures OneToOne(Next(digest, w, step).s)
  {
    hide OneToOne, Changelist, Launch, ChooseRemote, StageFile;
    var x := Next(digest, w, step).s;
    match step
    case BeginsFile(app, requested, path) =>
      var found := FindBatch(w.s, app, requested);
      if found.Ok? {
        var b := w.s.batches[found.value];
        ChangedOne(w.s, found.value, b.(begun := b.begun + {path}, arrived := b.arrived - {path}));
      }
    case Arrives(id, path, file) => if id in x.batches { ChangedOne(w.s, id, x.batches[id]); }
    case CommitsFile(app, path, succeeded) =>
      var found := FindBatch(w.s, app, None);
      if found.Ok? { ChangedOne(w.s, found.value, x.batches[found.value]); }
    case ChangesScope => NothingOpen(x);
    case StoreChanges(_, _) =>
    case _ => AppsApart(digest, w, step); TablesDecide(w.s, x);
  }

  lemma NothingOpen(s: Adapter)
    requires s.active == map[] && s.batches == map[]
    ensures OneToOne(s)
  {
  }

  lemma TablesDecide(s: Adapter, t: Adapter)
    requires s.active == t.active && s.batches == t.batches
    ensures OneToOne(s) == OneToOne(t)
  {
  }

  /** Verifying and choosing leave the batches alone. */
  lemma AppsApart(digest: Digest, w: World, step: Step)
    requires step.Verifies? || step.Launches? || step.TakesRemote? || step.Identifies?
             || step.KeepsLocal?
    ensures var x := Next(digest, w, step).s;
            x.active == w.s.active && x.batches == w.s.batches && x.nextBatch == w.s.nextBatch
  {
    hide Decide, BeginOperation, ConflictFromView, HeadIds;
  }

  lemma FreshKept(digest: Digest, w: World, step: Step)
    requires Fresh(w.s)
    ensures Fresh(Next(digest, w, step).s)
  {
    hide Changelist, Launch, ChooseRemote, UpdateIdentity, ChooseLocal, StageFile, Decide,
         BeginOperation, BatchBase, ConflictFromView, HeadIds, OperationAfter, CompleteBatch;
    match step
    case Completes(app, requested, committed, now) =>
      CompleteKeepsFresh(digest, w.s, StoreOf(w, app), app, requested, committed, now);
    case Begins(_, _, _, _, _) =>
    case BeginsFile(_, _, _) =>
    case Arrives(_, _, _) =>
    case CommitsFile(_, _, _) =>
    case ChangesScope =>
    case StoreChanges(_, _) =>
    case _ => AppsApart(digest, w, step);
  }

  lemma CompleteKeepsFresh(
    digest: Digest, s: Adapter, d: Directory, app: App, requested: Option<BatchId>,
    committed: bool, now: nat)
    requires Fresh(s)
    ensures Fresh(CompleteBatch(digest, s, d, app, requested, committed, now).1)
  {
    hide Decide, ConflictFromView, HeadIds, OperationAfter, DirectoryAfter;
  }

  ghost predicate AbortsSucceed(steps: seq<Step>) {
    forall i | 0 <= i < |steps| && steps[i].Begins? :: steps[i].abortOk
  }

  lemma StepKeepsOneToOne(digest: Digest, w: World, step: Step)
    requires OneToOne(w.s) && Fresh(w.s) && (step.Begins? ==> step.abortOk)
    ensures OneToOne(Next(digest, w, step).s)
  {
    hide OneToOne, Fresh, BeginBatch, CompleteBatch;
    match step
    case Begins(app, identity, uploads, deletes, abortOk) =>
      BeginKeepsOneToOneIff(w.s, StoreOf(w, app), app, identity, uploads, deletes, abortOk);
    case Completes(app, requested, committed, now) =>
      CompleteKeepsOneToOne(digest, w.s, StoreOf(w, app), app, requested, committed, now);
    case _ => OthersKeepOneToOne(digest, w, step);
  }

  /** While aborts succeed, every app has at most one batch and it is the active one. */
  lemma {:induction false} BatchesOneToOne(digest: Digest, w: World, steps: seq<Step>)
    requires OneToOne(w.s) && Fresh(w.s) && AbortsSucceed(steps)
    ensures OneToOne(Run(digest, w, steps).s)
    decreases |steps|
  {
    hide Next, OneToOne, Fresh;
    if steps != [] {
      StepKeepsOneToOne(digest, w, steps[0]);
      FreshKept(digest, w, steps[0]);
      BatchesOneToOne(digest, Next(digest, w, steps[0]), steps[1..]);
    }
  }

  // ----- What a batch publishes --------------------------------------------------------------------

  function SetOf(ids: seq<Id>): set<Id> { set id | id in ids }

  /** A pending conflict and a kept side are about the heads last verified. */
  ghost predicate GoodApp(a: AppState) {
    && (a.conflict.Some? ==> a.conflict.value.heads == a.verifiedHeads)
    && (a.keepLocal.Some? ==> a.keepLocal.value.heads == a.verifiedHeads)
  }

  ghost predicate GoodApps(apps: map<App, AppState>) {
    forall app | app in apps :: GoodApp(apps[app])
  }

  ghost predicate GoodOperation(op: Operation, o: Opening) {
    op.parents == op.expectedHeads == SetOf(o.verified) && op.originalFiles == BaseOf(o)
  }

  ghost predicate GoodBatch(b: Batch, o: Opening) {
    && b.app == o.app && b.uploads == o.uploads && b.deletes == o.deletes
    && GoodOperation(b.op, o)
    && b.begun <= b.uploads && b.arrived.Keys <= b.begun && b.staged.Keys <= b.uploads
  }

  ghost predicate GoodBatches(s: Adapter, openings: map<BatchId, Opening>) {
    && (forall id | id in s.batches :: id in openings && GoodBatch(s.batches[id], openings[id]))
    && (forall id | id in openings :: id < s.nextBatch)
  }

  ghost predicate GoodPublication(digest: Digest, p: Publication, openings: map<BatchId, Opening>) {
    && p.batch in openings
    && var o := openings[p.batch];
    && digest(p.manifest) !in p.before
    && p.manifest.parents == Heads(p.before) == SetOf(o.verified)
    && p.staged.Keys == o.uploads
    && p.manifest.files == (BaseOf(o) - o.deletes) + p.staged
  }

  ghost predicate GoodPublications(digest: Digest, published: seq<Publication>,
                                   openings: map<BatchId, Opening>) {
    forall p | p in published :: GoodPublication(digest, p, openings)
  }

  ghost predicate Good(digest: Digest, w: World) {
    && GoodApps(w.s.apps) && GoodBatches(w.s, w.openings)
    && GoodPublications(digest, w.published, w.openings)
  }

  lemma CompleteKeepsApps(
    digest: Digest, s: Adapter, d: Directory, app: App, requested: Option<BatchId>,
    committed: bool, now: nat)
    requires GoodApps(s.apps)
    ensures GoodApps(CompleteBatch(digest, s, d, app, requested, committed, now).1.apps)
  {
    hide Decide, BeginOperation, OperationAfter, HeadIds;
  }

  lemma AppsKept(digest: Digest, w: World, step: Step)
    requires GoodApps(w.s.apps)
    ensures GoodApps(Next(digest, w, step).s.apps)
  {
    hide Decide, BeginOperation, BatchBase, StageFile, OperationAfter, HeadIds, CompleteBatch;
    if step.Completes? {
      CompleteKeepsApps(digest, w.s, StoreOf(w, step.app), step.app, step.requested,
                        step.committed, step.now);
    }
  }

  /** A batch begins at the heads verified, with the files of the current head or of the side
  kept. */
  lemma BeginGood(s: Adapter, d: Directory, app: App, identity: Identity, op: Operation, o: Opening)
    requires GoodApps(s.apps) && BatchBase(s, d, app, identity).Ok?
    requires var base := BatchBase(s, d, app, identity).value;
             BeginOperation(d, base.0, base.1, 0) == Ok(op)
    requires o.verified == s.apps[app].verifiedHeads && o.at == d
    requires o.kept == if s.apps[app].keepLocal.Some?
                       then Some(s.apps[app].keepLocal.value.selected) else None
    ensures HeadIds(d) == o.verified && GoodOperation(op, o)
  {
    assert GoodApp(s.apps[app]);
    hide GoodApps, CurrentFiles, BlobsOf, Heads;
    assert Heads(d) == SetOf(HeadIds(d));
  }

  lemma OpenKeepsBatches(s: Adapter, openings: map<BatchId, Opening>, app: App, b: Batch, o: Opening)
    requires GoodBatches(s, openings) && GoodBatch(b, o)
    ensures GoodBatches(OpenBatch(CloseActive(s, app), app, b), openings[s.nextBatch := o])
  {
    hide GoodBatch;
  }

  lemma BeginStepGood(
    digest: Digest, w: World, app: App, identity: Identity, uploads: set<Path>,
    deletes: set<Path>, abortOk: bool)
    requires Good(digest, w)
    ensures Good(digest, BeginStep(w, app, identity, uploads, deletes, abortOk))
  {
    var d := StoreOf(w, app);
    var (r, s) := BeginBatch(w.s, d, app, identity, uploads, deletes, abortOk);
    var x := BeginStep(w, app, identity, uploads, deletes, abortOk);
    if r.Ok? {
      var base := BatchBase(w.s, d, app, identity).value;
      var op := BeginOperation(d, base.0, base.1, 0).value;
      var o := x.openings[r.value];
      var b := Batch(app, uploads, deletes, {}, map[], map[], op, identity);
      assert s == OpenBatch(CloseActive(w.s, app), app, b);
      BeginGood(w.s, d, app, identity, op, o);
      hide BatchBase, BeginOperation, GoodOperation, GoodApps, GoodBatches, GoodPublications;
      assert GoodBatch(b, o);
      OpenKeepsBatches(w.s, w.openings, app, b, o);
      OpeningsBelow(w.s, w.openings);
      OpeningsGrow(digest, w.published, w.openings, x.openings);
    } else {
      hide BatchBase, BeginOperation, GoodOperation, GoodApps, GoodPublications;
    }
  }

  lemma OpeningsBelow(s: Adapter, openings: map<BatchId, Opening>)
    requires GoodBatches(s, openings)
    ensures s.nextBatch !in openings
  {
  }

  lemma OpeningsGrow(digest: Digest, published: seq<Publication>, openings: map<BatchId, Opening>,
                     more: map<BatchId, Opening>)
    requires GoodPublications(digest, published, openings)
    requires forall id | id in openings :: id in more && more[id] == openings[id]
    ensures GoodPublications(digest, published, more)
  {
    forall p | p in published ensures GoodPublication(digest, p, more) {
      assert GoodPublication(digest, p, openings);
    }
  }

  /** Completing a batch publishes exactly what it was opened and filled for. */
  lemma CompletePublishes(
    digest: Digest, s: Adapter, openings: map<BatchId, Opening>, d: Directory, app: App,
    requested: Option<BatchId>, committed: bool, now: nat)
    requires GoodBatches(s, openings)
    ensures var (r, _) := CompleteBatch(digest, s, d, app, requested, committed, now);
            r.Ok? && r.value.Some? ==>
              && FindBatch(s, app, requested).Ok?
              && var id := FindBatch(s, app, requested).value;
              GoodPublication(digest, Publication(id, d, r.value.value, s.batches[id].staged), openings)
  {
    hide BlobsOf, Pruned, ValidSave, ConflictFromView, HeadIds, OperationAfter, MaxRevision;
    if FindBatch(s, app, requested).Ok? {
      var id := FindBatch(s, app, requested).value;
      assert GoodBatch(s.batches[id], openings[id]);
    }
  }

  lemma CompleteKeepsBatches(
    digest: Digest, s: Adapter, openings: map<BatchId, Opening>, d: Directory, app: App,
    requested: Option<BatchId>, committed: bool, now: nat)
    requires GoodBatches(s, openings)
    ensures GoodBatches(CompleteBatch(digest, s, d, app, requested, committed, now).1, openings)
  {
    hide Decide, ConflictFromView, HeadIds, DirectoryAfter;
  }

  lemma CompleteStepGood(
    digest: Digest, w: World, app: App, requested: Option<BatchId>, committed: bool, now: nat)
    requires Good(digest, w)
    ensures Good(digest, CompleteStep(digest, w, app, requested, committed, now))
  {
    var d := StoreOf(w, app);
    CompletePublishes(digest, w.s, w.openings, d, app, requested, committed, now);
    CompleteKeepsBatches(digest, w.s, w.openings, d, app, requested, committed, now);
    CompleteKeepsApps(digest, w.s, d, app, requested, committed, now);
    hide CompleteBatch, GoodBatches, GoodApps, GoodPublication;
  }

  lemma FilesKeepBatches(digest: Digest, w: World, step: Step)
    requires GoodBatches(w.s, w.openings)
    requires step.BeginsFile? || step.Arrives? || step.CommitsFile?
    ensures GoodBatches(Next(digest, w, step).s, w.openings)
  {
    hide BaseOf;
  }

  lemma NextGood(digest: Digest, w: World, step: Step)
    requires Good(digest, w)
    ensures Good(digest, Next(digest, w, step))
  {
    match step
    case Begins(app, identity, uploads, deletes, abortOk) =>
      hide Good, BeginStep;
      BeginStepGood(digest, w, app, identity, uploads, deletes, abortOk);
    case Completes(app, requested, committed, now) =>
      hide Good, CompleteStep;
      CompleteStepGood(digest, w, app, requested, committed, now);
    case BeginsFile(_, _, _) =>
      AppsKept(digest, w, step);
      FilesKeepBatches(digest, w, step);
      hide GoodApps, GoodBatches, GoodPublications;
    case Arrives(_, _, _) =>
      AppsKept(digest, w, step);
      FilesKeepBatches(digest, w, step);
      hide GoodApps, GoodBatches, GoodPublications;
    case CommitsFile(_, _, _) =>
      AppsKept(digest, w, step);
      FilesKeepBatches(digest, w, step);
      hide GoodApps, GoodBatches, GoodPublications;
    case _ =>
      AppsKept(digest, w, step);
      if step.Verifies? || step.Launches? || step.TakesRemote? { AppsApart(digest, w, step); }
      hide GoodApps, GoodPublications, Changelist, Launch, ChooseRemote;
  }

  lemma {:induction false} RunGood(digest: Digest, w: World, steps: seq<Step>)
    requires Good(digest, w)
    ensures Good(digest, Run(digest, w, steps))
    decreases |steps|
  {
    hide Next, Good;
    if steps != [] {
      NextGood(digest, w, steps[0]);
      RunGood(digest, Next(digest, w, steps[0]), steps[1..]);
    }
  }

  // ----- Only bytes that came are published ----------------------------------------------------------

  /** What a batch holds as arrived or staged did come for it. */
  ghost predicate CameFor(id: BatchId, b: Batch, arrivals: set<(BatchId, Path, StoredFile)>) {
    && (forall path | path in b.arrived :: (id, path, b.arrived[path]) in arrivals)
    && (forall path | path in b.staged :: (id, path, b.staged[path]) in arrivals)
  }

  ghost predicate AllCame(w: World) {
    && (forall id | id in w.s.batches :: CameFor(id, w.s.batches[id], w.arrivals))
    && (forall p | p in w.published ::
          forall path | path in p.staged :: (p.batch, path, p.staged[path]) in w.arrivals)
  }

  lemma CompleteKeepsCame(
    digest: Digest, s: Adapter, arrivals: set<(BatchId, Path, StoredFile)>, d: Directory, app: App,
    requested: Option<BatchId>, committed: bool, now: nat)
    requires forall id | id in s.batches :: CameFor(id, s.batches[id], arrivals)
    ensures var t := CompleteBatch(digest, s, d, app, requested, committed, now).1;
            forall id | id in t.batches :: CameFor(id, t.batches[id], arrivals)
  {
    hide Decide, ConflictFromView, HeadIds, DirectoryAfter, OperationAfter;
  }

  lemma BeginKeepsCame(
    s: Adapter, arrivals: set<(BatchId, Path, StoredFile)>, d: Directory, app: App,
    identity: Identity, uploads: set<Path>, deletes: set<Path>, abortOk: bool)
    requires forall id | id in s.batches :: CameFor(id, s.batches[id], arrivals)
    ensures var t := BeginBatch(s, d, app, identity, uploads, deletes, abortOk).1;
            forall id | id in t.batches :: CameFor(id, t.batches[id], arrivals)
  {
    hide BatchBase, BeginOperation, AbortOperation;
  }

  lemma FilesKeepCame(digest: Digest, w: World, step: Step)
    requires AllCame(w) && (step.BeginsFile? || step.Arrives? || step.CommitsFile?)
    ensures AllCame(Next(digest, w, step))
  {
  }

  lemma CameKept(digest: Digest, w: World, step: Step)
    requires AllCame(w)
    ensures AllCame(Next(digest, w, step))
  {
    match step
    case Begins(app, identity, uploads, deletes, abortOk) =>
      BeginKeepsCame(w.s, w.arrivals, StoreOf(w, app), app, identity, uploads, deletes, abortOk);
      hide CameFor, BeginBatch;
    case Completes(app, requested, committed, now) =>
      CompleteKeepsCame(digest, w.s, w.arrivals, StoreOf(w, app), app, requested, committed, now);
      CompleteFinds(digest, w.s, StoreOf(w, app), app, requested, committed, now);
      hide CompleteBatch;
    case BeginsFile(_, _, _) => FilesKeepCame(digest, w, step);
    case Arrives(_, _, _) => FilesKeepCame(digest, w, step);
    case CommitsFile(_, _, _) => FilesKeepCame(digest, w, step);
    case ChangesScope =>
    case StoreChanges(_, _) =>
    case _ =>
      AppsApart(digest, w, step);
      hide CameFor, Changelist, Launch, ChooseRemote, UpdateIdentity, ChooseLocal;
  }

  lemma CompleteFinds(
    digest: Digest, s: Adapter, d: Directory, app: App, requested: Option<BatchId>,
    committed: bool, now: nat)
    ensures var r := CompleteBatch(digest, s, d, app, requested, committed, now).0;
            r.Ok? ==> FindBatch(s, app, requested).Ok?
                      && FindBatch(s, app, requested).value in s.batches
  {
    hide Decide, ConflictFromView, HeadIds, DirectoryAfter, OperationAfter;
  }

  lemma {:induction false} RunCame(digest: Digest, w: World, steps: seq<Step>)
    requires AllCame(w)
    ensures AllCame(Run(digest, w, steps))
    decreases |steps|
  {
    hide Next, AllCame;
    if steps != [] {
      CameKept(digest, w, steps[0]);
      RunCame(digest, Next(digest, w, steps[0]), steps[1..]);
    }
  }

  // ----- Main results --------------------------------------------------------------------------------

  /** Every manifest that completing a batch published, in every run: its parents are exactly
  the heads the client had verified when the batch began, and were still the heads when it was
  published; its files are the base of the batch without the listed deletes and with exactly the
  listed uploads. */
  lemma PublishedFromVerified(digest: Digest, steps: seq<Step>, p: Publication)
    requires p in Run(digest, Start, steps).published
    ensures var w := Run(digest, Start, steps);
            && p.batch in w.openings
            && var o := w.openings[p.batch];
            && p.manifest.parents == SetOf(o.verified) == Heads(p.before)
            && p.staged.Keys == o.uploads
            && forall path ::
                 && (path in p.manifest.files <==>
                       path in o.uploads || (path in BaseOf(o) && path !in o.deletes))
                 && (path in o.uploads ==> p.manifest.files[path] == p.staged[path])
                 && (path !in o.uploads && path in p.manifest.files ==>
                       p.manifest.files[path] == BaseOf(o)[path])
  {
    RunGood(digest, Start, steps);
    hide Run;
    assert GoodPublication(digest, p, Run(digest, Start, steps).openings);
    hide Good, BaseOf;
  }

  /** Every uploaded file of a published manifest is one whose bytes came for a begun upload of that
  batch: nothing is taken from another batch or made up. */
  lemma UploadsCame(digest: Digest, steps: seq<Step>, p: Publication, path: Path)
    requires p in Run(digest, Start, steps).published
    requires path in p.staged
    ensures path in p.manifest.files
    ensures (p.batch, path, p.manifest.files[path]) in Run(digest, Start, steps).arrivals
  {
    PublishedFromVerified(digest, steps, p);
    RunCame(digest, Start, steps);
  }

  /** Starting empty, an app never has two batches while aborts succeed. */
  lemma OneBatchPerApp(digest: Digest, steps: seq<Step>, a: BatchId, b: BatchId)
    requires AbortsSucceed(steps)
    requires var s := Run(digest, Start, steps).s;
             a in s.batches && b in s.batches && s.batches[a].app == s.batches[b].app
    ensures a == b
  {
    BatchesOneToOne(digest, Start, steps);
  }

  /** Taking the remote side publishes its files over all heads. */
  lemma RemoteSideResolves(
    digest: Digest, s: Adapter, d: Directory, app: App, identity: Identity, now: nat)
    requires ChooseRemote(digest, s, d, app, identity, now).Ok?
    ensures app in s.apps && s.apps[app].conflict.Some? && s.apps[app].conflict.value.remoteHead.Some?
    ensures var m := ChooseRemote(digest, s, d, app, identity, now).value.1;
            var remote := s.apps[app].conflict.value.remoteHead.value;
            && PublishedOver(digest, d, d[digest(m) := m], m)
            && remote in d && m.files == d[remote].files && m.author == identity
  {
    var conflict := s.apps[app].conflict.value;
    var begun := BeginOperation(d, [conflict.remoteHead.value], Some(conflict.heads), 0);
    FolderStore.ResolutionPublishes(
      digest, d, conflict.heads, conflict.remoteHead.value, 0, begun.value, identity, now);
    hide Heads, BeginOperation, Decide, ConflictFromView;
  }

  /** A batch opened after keeping the local side starts from that side's files and settles the
  conflict even when it changes no file: completing it publishes or is refused. */
  lemma KeptSideResolves(
    digest: Digest, s: Adapter, d: Directory, app: App, identity: Identity, uploads: set<Path>,
    deletes: set<Path>, e: Directory, now: nat)
    requires app in s.apps && s.apps[app].keepLocal.Some?
    requires BeginBatch(s, d, app, identity, uploads, deletes, true).0.Ok?
    ensures var t := BeginBatch(s, d, app, identity, uploads, deletes, true).1;
            var r := CompleteBatch(digest, t, e, app, None, true, now).0;
            && app in t.active && t.active[app] in t.batches
            && t.batches[t.active[app]].op.originalFiles
               == d[s.apps[app].keepLocal.value.selected].files
            && (r.Ok? ==> r.value.Some?)
  {
    KeptSideIsForced(s, d, app, identity, uploads, deletes);
    hide BeginBatch;
    ForcedPublishes(digest, BeginBatch(s, d, app, identity, uploads, deletes, true).1, e, app, now);
  }

  lemma KeptSideIsForced(
    s: Adapter, d: Directory, app: App, identity: Identity, uploads: set<Path>, deletes: set<Path>)
    requires app in s.apps && s.apps[app].keepLocal.Some?
    requires BeginBatch(s, d, app, identity, uploads, deletes, true).0.Ok?
    ensures s.apps[app].keepLocal.value.selected in d
    ensures var t := BeginBatch(s, d, app, identity, uploads, deletes, true).1;
            && app in t.active && t.active[app] in t.batches
            && t.batches[t.active[app]].op.forcePublish
            && t.batches[t.active[app]].op.originalFiles
               == d[s.apps[app].keepLocal.value.selected].files
  {
    hide HeadIds, BlobsOf, Heads;
  }

  lemma ForcedPublishes(digest: Digest, s: Adapter, d: Directory, app: App, now: nat)
    requires app in s.active && s.active[app] in s.batches
    requires s.batches[s.active[app]].op.forcePublish
    ensures var r := CompleteBatch(digest, s, d, app, None, true, now).0;
            r.Ok? ==> r.value.Some?
  {
    hide ConflictFromView, HeadIds, BlobsOf, Pruned, ValidSave, NewManifest, Heads, OperationAfter;
  }

  /** A batch that lost its place in the active table still takes requests by its id, and closing
  it drops the batch that is active: later uploads to that one find no batch. */
  lemma OrphanUnseatsActive(digest: Digest, s: Adapter, d: Directory, app: App, orphan: BatchId,
                            now: nat)
    requires app in s.active && s.active[app] in s.batches && s.active[app] != orphan
    requires s.batches[s.active[app]].app == app
    requires orphan in s.batches && s.batches[orphan].app == app
    ensures var t := CompleteBatch(digest, s, d, app, Some(orphan), false, now).1;
            s.active[app] in t.batches && FindBatch(t, app, None).Err? && !OneToOne(t)
  {
    hide Decide;
    var t := CompleteBatch(digest, s, d, app, Some(orphan), false, now).1;
    assert s.active[app] in t.batches;
  }

  /** A run into that state: a batch is opened, the next opening fails to abort it, a third opens
  another, and closing the first leaves the other without its place. */
  lemma OrphanRun(digest: Digest, who: Identity)
    ensures var w := Run(digest, Start,
                         [Verifies(7, who), Begins(7, who, {}, {}, true), Begins(7, who, {}, {}, false),
                          Begins(7, who, {}, {}, true), Completes(7, Some(0), false, 0)]);
            1 in w.s.batches && w.s.batches[1].app == 7 && 7 !in w.s.active && !OneToOne(w.s)
  {
    var w3 := OrphanBesideActive(digest, who);
    RunOf5(digest, Start, Verifies(7, who), Begins(7, who, {}, {}, true),
           Begins(7, who, {}, {}, false), Begins(7, who, {}, {}, true), Completes(7, Some(0), false, 0));
    OrphanUnseatsActive(digest, w3.s, StoreOf(w3, 7), 7, 0, 0);
    hide CompleteBatch, BeginBatch;
  }

  /** The first four steps: batch 0 is orphaned, batch 1 active. */
  lemma OrphanBesideActive(digest: Digest, who: Identity) returns (w: World)
    ensures w == Next(digest, Next(digest, Next(digest, Next(digest, Start,
                   Verifies(7, who)), Begins(7, who, {}, {}, true)), Begins(7, who, {}, {}, false)),
                   Begins(7, who, {}, {}, true))
    ensures 7 in w.s.active && w.s.active[7] == 1 && 0 in w.s.batches && 1 in w.s.batches
    ensures w.s.batches[0].app == 7 && w.s.batches[1].app == 7
  {
    var w0 := Next(digest, Start, Verifies(7, who));
    EmptyStore(w0.s, who);
    var empty := BeginOperation(map[], [], None, 0).value;
    var first := Batch(7, {}, {}, {}, map[], map[], empty, who);
    var w1 := Next(digest, w0, Begins(7, who, {}, {}, true));
    assert w1.s == Adapter(map[7 := 0], map[0 := first], w0.s.apps, 1);
    EmptyStore(w1.s, who);
    var w2 := Next(digest, w1, Begins(7, who, {}, {}, false));
    assert w2.s == Adapter(map[], map[0 := first.(op := AbortOperation(empty))], w0.s.apps, 1);
    EmptyStore(w2.s, who);
    w := Next(digest, w2, Begins(7, who, {}, {}, true));
  }

  lemma EmptyStore(s: Adapter, who: Identity)
    requires 7 in s.apps && s.apps[7] == AppState(who, HeadIds(map[]), None, None)
    ensures BatchBase(s, map[], 7, who) == Ok(([], None))
    ensures BeginOperation(map[], [], None, 0).Ok?
  {
    assert Heads(map[]) == {};
  }

  lemma RunOf5(digest: Digest, w: World, a: Step, b: Step, c: Step, d: Step, e: Step)
    ensures Run(digest, w, [a, b, c, d, e])
            == Next(digest, Next(digest, Next(digest, Next(digest, Next(digest, w, a), b), c), d), e)
  {
    hide Next;
    var w1 := Next(digest, w, a);
    var w2 := Next(digest, w1, b);
    var w3 := Next(digest, w2, c);
    var w4 := Next(digest, w3, d);
    RunStep(digest, w, a, [b, c, d, e]);
    RunStep(digest, w1, b, [c, d, e]);
    RunStep(digest, w2, c, [d, e]);
    RunStep(digest, w3, d, [e]);
    RunStep(digest, w4, e, []);
  }

  lemma RunStep(digest: Digest, w: World, step: Step, rest: seq<Step>)
    ensures Run(digest, w, [step] + rest) == Run(digest, Next(digest, w, step), rest)
  {
    assert ([step] + rest)[1..] == rest;
  }

  // ----- Loops of the handlers ---------------------------------------------------------------------------

  ghost predicate Lists(list: seq<StagedFile>, staged: map<Path, StoredFile>) {
    && (forall i | 0 <= i < |list| ::
          list[i].path in staged && staged[list[i].path] == list[i].file)
    && (forall path | path in staged :: exists i | 0 <= i < |list| :: list[i].path == path)
  }

  /** The order in which staged files are listed does not matter. */
  lemma {:induction false} AnyOrder(files: Files, staged: map<Path, StoredFile>, list: seq<StagedFile>)
    requires Lists(list, staged)
    ensures WithStaged(files, list) == files + staged
  {
    var merged := WithStaged(files, list);
    forall path ensures path in merged <==> path in files + staged {
      WithStagedAt(files, list, path);
    }
    forall path | path in merged ensures merged[path] == (files + staged)[path] {
      WithStagedAt(files, list, path);
      if path in staged {
        var i := LastOf(list, path);
        assert merged[path] == list[i].file;
      }
    }
  }

  lemma {:induction false} LastOf(list: seq<StagedFile>, path: Path) returns (i: nat)
    requires exists j | 0 <= j < |list| :: list[j].path == path
    ensures i < |list| && list[i].path == path
    ensures forall j | i < j < |list| :: list[j].path != path
  {
    i := |list| - 1;
    while list[i].path != path
      invariant i < |list| && forall j | i < j < |list| :: list[j].path != path
      decreases i
    {
      i := i - 1;
    }
  }

  /** Check that every listed upload was committed, and list the staged files for the store. */
  method CollectStaged(b: Batch) returns (r: Result<seq<StagedFile>>)
    ensures r.Ok? <==> b.uploads <= b.staged.Keys
    ensures r.Ok? ==> MergedFiles(b.op.originalFiles, r.value, b.deletes) == BatchFiles(b)
  {
    var paths := b.uploads;
    while paths != {}
      invariant paths <= b.uploads && b.uploads - paths <= b.staged.Keys
      decreases |paths|
    {
      var path :| path in paths;
      if path !in b.staged { return Err(Permanent); }
      paths := paths - {path};
    }
    var list: seq<StagedFile> := [];
    var left := b.staged.Keys;
    while left != {}
      invariant left <= b.staged.Keys
      invariant forall i | 0 <= i < |list| ::
                  list[i].path in b.staged && b.staged[list[i].path] == list[i].file
      invariant forall path | path in b.staged && path !in left ::
                  exists i | 0 <= i < |list| :: list[i].path == path
      decreases |left|
    {
      var path :| path in left;
      ghost var before := list;
      list := list + [StagedFile(path, b.staged[path])];
      left := left - {path};
      forall p | p in b.staged && p !in left
        ensures exists i | 0 <= i < |list| :: list[i].path == p
      {
        if p == path { assert list[|list| - 1].path == p; }
        else {
          var i :| 0 <= i < |before| && before[i].path == p;
          assert list[i].path == p;
        }
      }
    }
    AnyOrder(b.op.originalFiles - b.deletes, b.staged, list);
    r := Ok(list);
  }

  class AdapterState {
    var active: map<App, BatchId>
    var batches: map<BatchId, Batch>
    var apps: map<App, AppState>
    var nextBatch: BatchId

    function Value(): Adapter
      reads this
    {
      Adapter(active, batches, apps, nextBatch)
    }

    constructor ()
      ensures Value() == Start.s
    {
      active, batches, apps, nextBatch := map[], map[], map[], 0;
    }

    method Begin(d: Directory, app: App, identity: Identity, uploads: set<Path>,
                 deletes: set<Path>, abortOk: bool) returns (r: Result<BatchId>)
      modifies this
      ensures (r, Value()) == BeginBatch(old(Value()), d, app, identity, uploads, deletes, abortOk)
    {
      var base := BatchBase(Value(), d, app, identity);
      if base.Err? { return Err(base.error); }
      hide BatchBase, BeginOperation;
      if app in active {
        var previous := active[app];
        active := active - {app};
        if previous in batches && !abortOk {
          var batch := batches[previous];
          batches := batches[previous := batch.(op := AbortOperation(batch.op))];
          return Err(Permanent);
        }
        batches := batches - {previous};
      }
      var begun := BeginOperation(d, base.value.0, base.value.1, 0);
      if begun.Err? { return Err(begun.error); }
      active := active[app := nextBatch];
      batches := batches[nextBatch :=
        Batch(app, uploads, deletes, {}, map[], map[], begun.value, identity)];
      r := Ok(nextBatch);
      nextBatch := nextBatch + 1;
    }

    method FileCommitted(app: App, path: Path, succeeded: bool) returns (r: Result<bool>)
      modifies this
      ensures (r, Value()) == CommitFile(old(Value()), app, path, succeeded)
    {
      var found := FindBatch(Value(), app, None);
      if found.Err? { return Err(found.error); }
      var b := batches[found.value];
      if path !in b.begun { return Err(Permanent); }
      if !succeeded || path !in b.arrived { return Ok(false); }
      batches := batches[found.value :=
        b.(staged := b.staged[path := b.arrived[path]], arrived := b.arrived - {path})];
      r := Ok(true);
    }

    /** A change of backend scope drops every batch and view. */
    method Prepare()
      modifies this
      ensures Value() == Adapter(map[], map[], map[], old(nextBatch)) && OneToOne(Value())
    {
      active, batches, apps := map[], map[], map[];
    }
  }
}
