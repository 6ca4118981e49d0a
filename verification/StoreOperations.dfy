/** Optimistic save operations over an app directory: begin at some heads, stage blobs,
publish one manifest if the heads are still the same. */
module StoreOperations {
  import opened Wrappers
  import opened Manifests
  import SortedSets

  /** A blob in an operation's private directory: its content hash and its size. */
  type Blob = (Hash, nat)

  datatype Operation = Operation(
    expectedHeads: set<Id>, parents: set<Id>, originalFiles: Files, forcePublish: bool,
    minimumRevision: nat, blobs: set<Blob>, closed: bool)

  datatype StagedFile = StagedFile(path: Path, file: StoredFile)

  predicate Distinct(ids: seq<Id>) {
    forall i, j | 0 <= i < j < |ids| :: ids[i] != ids[j]
  }

  lemma DistinctSnoc(front: seq<Id>, last: Id)
    ensures Distinct(front + [last]) <==> Distinct(front) && last !in front
  {
    var ids := front + [last];
    if Distinct(ids) {
      assert forall i | 0 <= i < |front| :: front[i] == ids[i] && ids[i] != ids[|front|];
    }
  }

  /** A caller's list of ids, sorted and deduplicated; a duplicate is an error. */
  function NormalizedHeadIds(ids: seq<Id>): (r: Result<set<Id>>)
    ensures r.Ok? <==> Distinct(ids)
    ensures r.Ok? ==> r.value == (set id | id in ids) && |r.value| == |ids|
  {
    if ids == [] then Ok({})
    else
      var front, last := ids[..|ids| - 1], ids[|ids| - 1];
      var rest := NormalizedHeadIds(front);
      DistinctSnoc(front, last);
      assert ids == front + [last];
      if rest.Err? || last in rest.value then Err(Permanent) else Ok(rest.value + {last})
  }

  function BlobsOf(files: Files): set<Blob> {
    set path | path in files :: (files[path].sha1, files[path].rawSize)
  }

  function BeginOperation(
    d: Directory, baseHeads: seq<Id>, resolutionHeads: Option<seq<Id>>, minimumRevision: nat)
    : Result<Operation>
  {
    var base := NormalizedHeadIds(baseHeads);
    if base.Err? then Err(base.error)
    else match resolutionHeads
      case Some(list) =>
        var expected := NormalizedHeadIds(list);
        if expected.Err? then Err(expected.error)
        else if |expected.value| < 2 || Heads(d) != expected.value then Err(Conflict)
        else if |baseHeads| != 1 || baseHeads[0] !in d then Err(Permanent)
        else
          var files := d[baseHeads[0]].files;
          Ok(Operation(expected.value, expected.value, files, true, minimumRevision,
                       BlobsOf(files), false))
      case None =>
        if Heads(d) != base.value || |Heads(d)| > 1 then Err(Conflict)
        else
          var files := CurrentFiles(d);
          Ok(Operation(base.value, base.value, files, false, minimumRevision,
                       BlobsOf(files), false))
  }

  /** The heads as a view lists them. */
  function HeadIds(d: Directory): (ids: seq<Id>)
    ensures (set id | id in ids) == Heads(d)
  {
    SortedSets.SortedIds(Heads(d))
  }

  /** The only head's manifest, if there is exactly one head. */
  function Current(d: Directory): (r: Option<Manifest>)
    ensures r.Some? <==> |Heads(d)| == 1
    ensures forall id | Heads(d) == {id} :: id in d && r == Some(d[id])
  {
    if |Heads(d)| == 1 then
      var id := TheOnly(Heads(d));
      Some(d[id])
    else None
  }

  function TheOnly(s: set<Id>): (id: Id)
    requires |s| == 1
    ensures s == {id}
  {
    OneMember(s);
    var id :| id in s;
    id
  }

  lemma OneMember(s: set<Id>)
    requires |s| == 1
    ensures exists id :: s == {id}
  {
    var id :| id in s;
    assert |s - {id}| == 0;
    assert s == {id};
  }

  function CurrentFiles(d: Directory): Files {
    if Current(d).Some? then Current(d).value.files else map[]
  }

  function CurrentRevision(d: Directory): nat {
    if Current(d).Some? then Current(d).value.revision else 0
  }

  function StageFile(op: Operation, blob: Blob): Result<Operation> {
    if op.closed then Err(Permanent) else Ok(op.(blobs := op.blobs + {blob}))
  }

  function AbortOperation(op: Operation): Operation {
    if op.closed then op else op.(closed := true, blobs := {})
  }

  function WithStaged(files: Files, staged: seq<StagedFile>): Files {
    if staged == [] then files
    else
      var last := staged[|staged| - 1];
      WithStaged(files, staged[..|staged| - 1])[last.path := last.file]
  }

  /** The base files without the deleted paths, then every staged file, the last one winning. */
  function MergedFiles(original: Files, staged: seq<StagedFile>, deleted: set<Path>): Files {
    WithStaged(original - deleted, staged)
  }

  lemma {:induction false} WithStagedAt(files: Files, staged: seq<StagedFile>, path: Path)
    ensures path in WithStaged(files, staged)
       <==> path in files || exists i | 0 <= i < |staged| :: staged[i].path == path
    ensures (forall i | 0 <= i < |staged| :: staged[i].path != path) && path in files
            ==> WithStaged(files, staged)[path] == files[path]
    ensures forall i | 0 <= i < |staged| && staged[i].path == path
                    && (forall j | i < j < |staged| :: staged[j].path != path) ::
              WithStaged(files, staged)[path] == staged[i].file
  {
    if staged != [] {
      var front, last := staged[..|staged| - 1], staged[|staged| - 1];
      assert forall i | 0 <= i < |front| :: front[i] == staged[i];
      WithStagedAt(files, front, path);
      if last.path == path {
        assert staged[|staged| - 1].path == path;
      }
    }
  }

  /** What a commit decides: refuse, close because nothing changed, or publish. */
  datatype Decision = Refuse(error: Error) | Unchanged(revision: nat) | Publish(manifest: Manifest)

  ghost function NewManifest(
    d: Directory, op: Operation, files: Files, author: Identity, now: nat): Manifest
  {
    var floor := if MaxRevision(d) > op.minimumRevision then MaxRevision(d) else op.minimumRevision;
    Manifest(floor + 1, op.parents, author, now, files)
  }

  /** The blobs whose hash some remaining file still uses. */
  function Pruned(blobs: set<Blob>, files: Files): set<Blob> {
    var hashes := set path | path in files :: files[path].sha1;
    set b | b in blobs && b.0 in hashes
  }

  const MAX_MANIFEST_FILES := 100_000
  const MAX_MANIFEST_PARENTS := 4096
  const MAX_SAVE_FILE_BYTES := 256 * 1024 * 1024

  /** What a manifest must satisfy to be published: bounded, with plausible files, and one
  size for each blob. */
  predicate ValidSave(parents: set<Id>, files: Files) {
    && |files| <= MAX_MANIFEST_FILES && |parents| <= MAX_MANIFEST_PARENTS
    && (forall path | path in files ::
          files[path].mtime >= 0 && files[path].rawSize <= MAX_SAVE_FILE_BYTES)
    && (forall p, q | p in files && q in files && files[p].sha1 == files[q].sha1 ::
          files[p].rawSize == files[q].rawSize)
  }

  /** Whether the commit gets past the checks on the operation and on the heads. */
  predicate Admitted(d: Directory, op: Operation) {
    !op.closed && Heads(d) == op.expectedHeads
  }

  ghost function Decide(
    digest: Digest, d: Directory, op: Operation, files: Files, author: Identity, now: nat): Decision
  {
    if op.closed then Refuse(Permanent)
    else if Heads(d) != op.expectedHeads then Refuse(Conflict)
    else if !(BlobsOf(files) <= Pruned(op.blobs, files)) then Refuse(Permanent)
    else if files == op.originalFiles && !op.forcePublish then Unchanged(CurrentRevision(d))
    else
      var m := NewManifest(d, op, files, author, now);
      if !ValidSave(m.parents, files) || digest(m) in d then Refuse(Permanent) else Publish(m)
  }

  /** The directory after a commit that decided `what`. */
  function DirectoryAfter(digest: Digest, d: Directory, what: Decision): Directory {
    if what.Publish? then d[digest(what.manifest) := what.manifest] else d
  }

  /** The operation after a commit: pruning happens before verification, so it stays even when
  the commit is refused later. */
  ghost function OperationAfter(d: Directory, op: Operation, files: Files, what: Decision): Operation {
    if !Admitted(d, op) then op
    else if what.Refuse? then op.(blobs := Pruned(op.blobs, files))
    else op.(closed := true, blobs := {})
  }

  /** `m` was added to `before`, over every head of it and above every revision in it. */
  ghost predicate PublishedOver(digest: Digest, before: Directory, after: Directory, m: Manifest) {
    && digest(m) !in before && after == before[digest(m) := m]
    && m.parents == Heads(before) && m.revision > MaxRevision(before)
  }

  function ResultOf(what: Decision): Result<nat> {
    match what
    case Refuse(error) => Err(error)
    case Unchanged(revision) => Ok(revision)
    case Publish(m) => Ok(m.revision)
  }

  /** A new manifest is newer than everything present, so nothing present names it. */
  lemma NewManifestIsNew(
    digest: Digest, history: Directory, d: Directory, op: Operation, files: Files,
    author: Identity, now: nat)
    requires CollisionFree(digest) && GoodHistory(digest, history) && Held(history, d)
    ensures var m := NewManifest(d, op, files, author, now);
            digest(m) !in d && !HasChild(d, digest(m))
  {
    var m := NewManifest(d, op, files, author, now);
    assert digest(m) in history ==> history[digest(m)] == m;
  }

  /** A manifest over all heads becomes the only head. */
  lemma CoveringManifest(d: Directory, id: Id, m: Manifest)
    requires id !in d && !HasChild(d, id) && m.parents == Heads(d)
    ensures Heads(d[id := m]) == {id}
  {
    assert id !in m.parents;
    HeadsOfExtension(d, id, m);
  }

  /** A commit that publishes adds one manifest, which becomes the only head: its parents are
  the heads the operation began at, its files are the ones merged, and its revision exceeds
  every present one and the client's own. */
  lemma CommitPublishes(
    digest: Digest, history: Directory, d: Directory, op: Operation, files: Files,
    author: Identity, now: nat)
    requires CollisionFree(digest) && GoodHistory(digest, history) && Held(history, d)
    requires op.parents == op.expectedHeads
    requires Decide(digest, d, op, files, author, now).Publish?
    ensures var m := Decide(digest, d, op, files, author, now).manifest;
            && digest(m) !in d && Heads(d[digest(m) := m]) == {digest(m)}
            && m.parents == op.expectedHeads == Heads(d)
            && m.files == files && m.author == author
            && m.revision > MaxRevision(d) && m.revision > op.minimumRevision
            && (forall id | id in d :: m.revision > d[id].revision)
            && MaxRevision(d[digest(m) := m]) == m.revision
  {
    var m := NewManifest(d, op, files, author, now);
    NewManifestIsNew(digest, history, d, op, files, author, now);
    CoveringManifest(d, digest(m), m);
    MaxOfExtension(d, digest(m), m);
  }

  lemma MaxOfExtension(d: Directory, id: Id, m: Manifest)
    requires id !in d
    ensures MaxRevision(d[id := m])
            == if m.revision > MaxRevision(d) then m.revision else MaxRevision(d)
  {
    var e := d[id := m];
    assert e[id] == m;
    assert forall k | k in d :: e[k] == d[k];
    if MaxRevision(d) > 0 {
      var top :| top in d && d[top].revision == MaxRevision(d);
      assert e[top].revision == MaxRevision(d);
    }
  }

  /** Exactly when a commit succeeds, and when success leaves the directory as it was. */
  lemma CommitSucceedsIff(
    digest: Digest, history: Directory, d: Directory, op: Operation, files: Files,
    author: Identity, now: nat)
    requires CollisionFree(digest) && GoodHistory(digest, history) && Held(history, d)
    requires !op.forcePublish ==> |op.expectedHeads| <= 1
    ensures var what := Decide(digest, d, op, files, author, now);
            var same := files == op.originalFiles && !op.forcePublish;
            && (ResultOf(what).Ok? <==>
                  Admitted(d, op) && BlobsOf(files) <= op.blobs && (same || ValidSave(op.parents, files)))
            && (what.Unchanged? ==> same && what.revision == MaxRevision(d))
            && (what.Publish? ==> !same)
  {
    hide BlobsOf, Pruned, ValidSave, Heads, MaxRevision, HasChild, GoodHistory, CollisionFree, Held;
    NewManifestIsNew(digest, history, d, op, files, author, now);
    PruningKeepsNeeded(op.blobs, files);
    if Heads(d) == op.expectedHeads && !op.forcePublish {
      RevisionIsMax(digest, history, d);
    }
  }

  lemma PruningKeepsNeeded(blobs: set<Blob>, files: Files)
    ensures BlobsOf(files) <= blobs <==> BlobsOf(files) <= Pruned(blobs, files)
  {
  }

  lemma RevisionIsMax(digest: Digest, history: Directory, d: Directory)
    requires GoodHistory(digest, history) && Held(history, d) && |Heads(d)| <= 1
    ensures CurrentRevision(d) == MaxRevision(d)
  {
    NoHeadsIffEmpty(digest, history, d);
    if |Heads(d)| == 1 {
      SingleHead(digest, history, d, TheOnly(Heads(d)));
    } else {
      assert Heads(d) == {};
    }
  }

  // ----- Views and change lists ----------------------------------------------------------

  datatype ChangeList = ChangeList(changeNumber: nat, files: Files, isDelta: bool)

  function ChangeListFromManifest(m: Option<Manifest>, since: nat, forceFull: bool)
    : Result<ChangeList>
  {
    var current := if m.Some? then m.value.revision else 0;
    if since > current then Err(Conflict)
    else if since == current && !forceFull then Ok(ChangeList(current, map[], true))
    else Ok(ChangeList(current, if m.Some? then m.value.files else map[], false))
  }

  function ChangesSince(d: Directory, since: nat): Result<ChangeList> {
    if |Heads(d)| > 1 then Err(Conflict)
    else ChangeListFromManifest(Current(d), since, false)
  }

  function ChangesFromHead(d: Directory, head: Id, since: nat): Result<ChangeList> {
    if head !in Heads(d) then Err(Conflict)
    else ChangeListFromManifest(Some(d[head]), since, true)
  }

  /** The store's answer to a view request: the change number when unconflicted, the largest
  revision, and the manifest behind each head. */
  datatype View = View(changeNumber: Option<nat>, maxRevision: nat, heads: map<Id, Manifest>)

  ghost function ViewOf(d: Directory): View {
    View(if |Heads(d)| > 1 then None else Some(CurrentRevision(d)),
         MaxRevision(d), map id | id in Heads(d) :: d[id])
  }

  // ----- A sweep is invisible ------------------------------------------------------------

  /** Two directories that no operation can tell apart: same heads, same manifests at them,
  same largest revision. */
  ghost predicate Alike(a: Directory, b: Directory) {
    && Heads(a) == Heads(b)
    && (forall id | id in Heads(a) :: a[id] == b[id])
    && MaxRevision(a) == MaxRevision(b)
  }

  lemma SweepIsAlike(digest: Digest, history: Directory, d: Directory)
    requires GoodHistory(digest, history) && Held(history, d)
    ensures Alike(Swept(d), d)
  {
    SweepKeepsHeads(d);
    SweepKeepsMaxRevision(digest, history, d);
  }

  /** Views, change lists and the current files depend only on what a sweep keeps. */
  lemma AlikeViews(a: Directory, b: Directory, since: nat, head: Id)
    requires Alike(a, b)
    ensures ViewOf(a) == ViewOf(b)
    ensures Current(a) == Current(b)
    ensures ChangesSince(a, since) == ChangesSince(b, since)
    ensures ChangesFromHead(a, head, since) == ChangesFromHead(b, head, since)
  {
    if |Heads(a)| == 1 {
      var id := TheOnly(Heads(a));
    }
    assert ViewOf(a).heads == ViewOf(b).heads;
  }

  /** Committing any operation, however old, decides the same on both directories. */
  lemma AlikeCommits(
    digest: Digest, history: Directory, a: Directory, b: Directory, op: Operation,
    files: Files, author: Identity, now: nat)
    requires CollisionFree(digest) && GoodHistory(digest, history)
    requires Held(history, a) && Held(history, b) && Alike(a, b)
    ensures Decide(digest, a, op, files, author, now) == Decide(digest, b, op, files, author, now)
    ensures var what := Decide(digest, a, op, files, author, now);
            OperationAfter(a, op, files, what) == OperationAfter(b, op, files, what)
  {
    assert CurrentRevision(a) == CurrentRevision(b) by { AlikeViews(a, b, 0, 0); }
    NewManifestIsNew(digest, history, a, op, files, author, now);
    NewManifestIsNew(digest, history, b, op, files, author, now);
    DecisionInputs(digest, a, b, op, files, author, now);
  }

  lemma DecisionInputs(
    digest: Digest, a: Directory, b: Directory, op: Operation, files: Files, author: Identity,
    now: nat)
    requires Heads(a) == Heads(b) && MaxRevision(a) == MaxRevision(b)
    requires CurrentRevision(a) == CurrentRevision(b)
    requires digest(NewManifest(a, op, files, author, now)) !in a
    requires digest(NewManifest(b, op, files, author, now)) !in b
    ensures Decide(digest, a, op, files, author, now) == Decide(digest, b, op, files, author, now)
    ensures var what := Decide(digest, a, op, files, author, now);
            OperationAfter(a, op, files, what) == OperationAfter(b, op, files, what)
  {
    assert NewManifest(a, op, files, author, now) == NewManifest(b, op, files, author, now);
  }

  /** Beginning an operation after a sweep gives the same answer as before it, exactly unless
  a conflict resolution names a swept manifest as its base. */
  lemma BeginAfterSweepIff(
    d: Directory, base: seq<Id>, resolution: Option<seq<Id>>, minimum: nat)
    ensures BeginOperation(Swept(d), base, resolution, minimum)
            == BeginOperation(d, base, resolution, minimum)
       <==> !(&& resolution.Some? && BeginOperation(d, base, resolution, minimum).Ok?
              && base[0] !in Swept(d))
  {
    SweepKeepsHeads(d);
    CurrentAfterSweep(d);
    var left := Swept(d);
    assert left.Keys <= d.Keys && forall id | id in left :: left[id] == d[id];
    BeginInputs(d, left, base, resolution, minimum);
  }

  lemma BeginInputs(
    a: Directory, b: Directory, base: seq<Id>, resolution: Option<seq<Id>>, minimum: nat)
    requires Heads(a) == Heads(b) && Current(a) == Current(b)
    requires b.Keys <= a.Keys && forall id | id in b :: b[id] == a[id]
    ensures BeginOperation(b, base, resolution, minimum)
            == BeginOperation(a, base, resolution, minimum)
       <==> !(&& resolution.Some? && BeginOperation(a, base, resolution, minimum).Ok?
              && base[0] !in b)
  {
    hide Heads, BlobsOf, Current, NormalizedHeadIds;
    if resolution.Some? {
      if |base| == 1 && base[0] in b {
        assert a[base[0]] == b[base[0]];
      }
    }
  }

  lemma CurrentAfterSweep(d: Directory)
    ensures Current(Swept(d)) == Current(d)
  {
    SweepKeepsHeads(d);
    if |Heads(d)| == 1 {
      var id := TheOnly(Heads(d));
      assert id in Heads(d);
    }
  }
}
