/** The store as the program runs it: a directory changed in place, operation handles shared
with callers, and a sweep that moves one manifest at a time and can fail half-way. */
module FolderStore {
  import opened Wrappers
  import opened Manifests
  import opened StoreOperations

  /** A save operation in progress: a private blob directory and a `closed` flag. */
  class SaveOperation {
    const expectedHeads: set<Id>
    const parents: set<Id>
    const originalFiles: Files
    const forcePublish: bool
    const minimumRevision: nat
    var blobs: set<Blob>
    var closed: bool

    constructor (expectedHeads: set<Id>, originalFiles: Files, forcePublish: bool,
                 minimumRevision: nat)
      ensures Value() == Operation(expectedHeads, expectedHeads, originalFiles, forcePublish,
                                   minimumRevision, BlobsOf(originalFiles), false)
    {
      this.expectedHeads, this.parents := expectedHeads, expectedHeads;
      this.originalFiles, this.forcePublish := originalFiles, forcePublish;
      this.minimumRevision := minimumRevision;
      this.blobs, this.closed := BlobsOf(originalFiles), false;
    }

    function Value(): Operation
      reads this
    {
      Operation(expectedHeads, parents, originalFiles, forcePublish, minimumRevision, blobs, closed)
    }

    method Abort()
      modifies this
      ensures Value() == AbortOperation(old(Value()))
    {
      if closed { return; }
      closed := true;
      blobs := {};
    }
  }

  /** A manifest moved out of the app directory, with the id it had there. */
  type Moved = (Id, Manifest)

  function AsDirectory(moved: seq<Moved>): Directory {
    if moved == [] then map[]
    else AsDirectory(moved[..|moved| - 1])[moved[|moved| - 1].0 := moved[|moved| - 1].1]
  }

  /** The largest revision present, found by one pass over the directory. */
  method FindMaxRevision(d: Directory) returns (r: nat)
    ensures r == MaxRevision(d)
  {
    r := 0;
    var left := d.Keys;
    while left != {}
      invariant left <= d.Keys
      invariant forall id | id in d && id !in left :: d[id].revision <= r
      invariant r == 0 || exists id | id in d :: d[id].revision == r
    {
      var id :| id in left;
      if d[id].revision > r { r := d[id].revision; }
      left := left - {id};
    }
  }

  method Merge(original: Files, staged: seq<StagedFile>, deleted: set<Path>) returns (files: Files)
    ensures files == MergedFiles(original, staged, deleted)
  {
    files := original;
    var left := deleted;
    while left != {}
      invariant left <= deleted
      invariant files == original - (deleted - left)
    {
      var path :| path in left;
      files := files - {path};
      left := left - {path};
    }
    for i := 0 to |staged|
      invariant files == WithStaged(original - deleted, staged[..i])
    {
      files := files[staged[i].path := staged[i].file];
      assert staged[..i + 1][..i] == staged[..i];
    }
    assert staged[..|staged|] == staged;
  }

  method FindRetained(d: Directory) returns (retained: set<Id>)
    ensures retained == Retained(d)
  {
    var heads := Heads(d);
    retained := heads;
    var left := heads;
    while left != {}
      invariant left <= heads <= d.Keys
      invariant retained == heads + ParentsOf(d, heads - left)
    {
      var head :| head in left;
      assert heads - (left - {head}) == (heads - left) + {head};
      MoreParents(d, heads - left, head);
      retained := retained + set id | id in d[head].parents && id in d;
      left := left - {head};
    }
    assert heads - {} == heads;
  }

  /** The present parents of some manifests. */
  function ParentsOf(d: Directory, ids: set<Id>): set<Id>
    requires ids <= d.Keys
  {
    set id, h | h in ids && id in d[h].parents && id in d :: id
  }

  lemma MoreParents(d: Directory, ids: set<Id>, head: Id)
    requires ids <= d.Keys && head in d
    ensures ParentsOf(d, ids + {head})
            == ParentsOf(d, ids) + set id | id in d[head].parents && id in d
  {
  }

  method Least(ids: set<Id>) returns (least: Id)
    requires ids != {}
    ensures least in ids && forall id | id in ids :: least <= id
  {
    least :| least in ids;
    var left := ids - {least};
    while left != {}
      invariant left <= ids && least in ids
      invariant forall id | id in ids && id !in left :: least <= id
    {
      var id :| id in left;
      if id < least { least := id; }
      left := left - {id};
    }
  }

  class Store {
    const digest: Digest
    var present: Directory

    constructor (digest: Digest)
      ensures present == map[] && this.digest == digest
    {
      this.digest := digest;
      present := map[];
    }

    method Begin(baseHeads: seq<Id>, resolutionHeads: Option<seq<Id>>, minimumRevision: nat)
      returns (r: Result<SaveOperation>)
      ensures var spec := BeginOperation(present, baseHeads, resolutionHeads, minimumRevision);
              && (r.Err? ==> spec == Err(r.error))
              && (r.Ok? ==> fresh(r.value) && spec == Ok(r.value.Value()))
    {
      var base := NormalizedHeadIds(baseHeads);
      if base.Err? { return Err(base.error); }
      var heads := Heads(present);
      match resolutionHeads
      case Some(list) =>
        var expected := NormalizedHeadIds(list);
        if expected.Err? { return Err(expected.error); }
        if |expected.value| < 2 || heads != expected.value { return Err(Conflict); }
        if |baseHeads| != 1 || baseHeads[0] !in present { return Err(Permanent); }
        var op := new SaveOperation(
          expected.value, present[baseHeads[0]].files, true, minimumRevision);
        return Ok(op);
      case None =>
        if heads != base.value || |heads| > 1 { return Err(Conflict); }
        var op := new SaveOperation(base.value, CurrentFiles(present), false, minimumRevision);
        return Ok(op);
    }

    method Stage(op: SaveOperation, blob: Blob) returns (r: Result<()>)
      modifies op
      ensures var spec := StageFile(old(op.Value()), blob);
              if spec.Ok? then r.Ok? && op.Value() == spec.value
              else r == Err(spec.error) && op.Value() == old(op.Value())
    {
      if op.closed { return Err(Permanent); }
      op.blobs := op.blobs + {blob};
      return Ok(());
    }

    method Commit(op: SaveOperation, staged: seq<StagedFile>, deleted: set<Path>,
                  author: Identity, now: nat) returns (r: Result<nat>)
      modifies this, op
      ensures var files := MergedFiles(op.originalFiles, staged, deleted);
              var what := Decide(digest, old(present), old(op.Value()), files, author, now);
              && r == ResultOf(what)
              && present == DirectoryAfter(digest, old(present), what)
              && op.Value() == OperationAfter(old(present), old(op.Value()), files, what)
    {
      hide ValidSave, BlobsOf, Pruned, Heads, MergedFiles, MaxRevision;
      if op.closed { return Err(Permanent); }
      if Heads(present) != op.expectedHeads { return Err(Conflict); }
      var files := Merge(op.originalFiles, staged, deleted);
      op.blobs := Pruned(op.blobs, files);
      if !(BlobsOf(files) <= op.blobs) { return Err(Permanent); }
      if files == op.originalFiles && !op.forcePublish {
        op.closed, op.blobs := true, {};
        return Ok(CurrentRevision(present));
      }
      var max := FindMaxRevision(present);
      var floor := if max > op.minimumRevision then max else op.minimumRevision;
      var m := Manifest(floor + 1, op.parents, author, now, files);
      if !ValidSave(m.parents, files) || digest(m) in present { return Err(Permanent); }
      present := present[digest(m) := m];
      op.closed, op.blobs := true, {};
      return Ok(m.revision);
    }

    /** Resolve a conflict by publishing the selected head's files over all heads. */
    method ResolveToManifest(expected: seq<Id>, selected: Id, author: Identity, minimum: nat,
                             now: nat) returns (r: Result<nat>)
      modifies this
      ensures r.Err? ==> present == old(present)
      ensures r.Ok? ==>
                && Heads(old(present)) == (set id | id in expected) && |expected| >= 2
                && selected in old(present)
                && exists m :: PublishedOver(digest, old(present), present, m)
                     && m.files == old(present)[selected].files && m.author == author
                     && r == Ok(m.revision) && m.revision > minimum
    {
      var begun := Begin([selected], Some(expected), minimum);
      if begun.Err? { return Err(begun.error); }
      var op := begun.value;
      ResolutionPublishes(digest, present, expected, selected, minimum, op.Value(), author, now);
      r := Commit(op, [], {}, author, now);
    }

    /** Publish over all heads when they all hold the same files; report whether it did. */
    method ResolveIdenticalHeads(author: Identity, now: nat) returns (r: Result<Option<nat>>)
      modifies this
      ensures r.Err? || r.value.None? ==> present == old(present)
      ensures r.Ok? && r.value.None? <==>
                |Heads(old(present))| < 2
                || exists a, b | a in Heads(old(present)) && b in Heads(old(present)) ::
                     old(present)[a].files != old(present)[b].files
      ensures r.Ok? && r.value.Some? ==>
                exists m :: PublishedOver(digest, old(present), present, m)
                  && (forall h | h in Heads(old(present)) :: m.files == old(present)[h].files)
    {
      var heads := Heads(present);
      if |heads| < 2 { return Ok(None); }
      assert heads != {};
      var selected := Least(heads);
      if exists h | h in heads :: present[h].files != present[selected].files { return Ok(None); }
      var list := HeadIds(present);
      var resolved := ResolveToManifest(list, selected, author, 0, now);
      if resolved.Err? { return Err(resolved.error); }
      return Ok(Some(resolved.value));
    }

    /** Report what a sweep of the directory would keep and what it would move. */
    method Inspect() returns (retained: set<Id>, candidates: set<Id>)
      ensures retained == Retained(present) && candidates == Candidates(present)
      ensures retained + candidates == present.Keys && retained !! candidates
      ensures Heads(present - candidates) == Heads(present)
    {
      retained := FindRetained(present);
      candidates := present.Keys - retained;
      SweepKeepsHeads(present);
    }

    /** Move the candidates away in id order.  When moving one fails, put back those already
    moved and report the failure. */
    method Move(candidates: set<Id>, fails: set<Id>) returns (r: Result<seq<Moved>>)
      requires candidates <= present.Keys
      modifies this
      ensures r.Ok? <==> candidates !! fails
      ensures r.Err? ==> present == old(present)
      ensures r.Ok? ==> present == old(present) - candidates
                        && AsDirectory(r.value) == old(present) - (old(present).Keys - candidates)
    {
      var moved: seq<Moved> := [];
      var left := candidates;
      while left != {}
        invariant left <= candidates
        invariant (candidates - left) !! fails
        invariant present == old(present) - (candidates - left)
        invariant AsDirectory(moved) == old(present) - (old(present).Keys - (candidates - left))
      {
        var id := Least(left);
        if id in fails {
          Restore(moved);
          return Err(Permanent);
        }
        moved := moved + [(id, present[id])];
        present := present - {id};
        left := left - {id};
      }
      return Ok(moved);
    }

    /** Put moved manifests back, last one first; one that is present again keeps its place. */
    method Restore(moved: seq<Moved>)
      modifies this
      ensures present == AsDirectory(moved) + old(present)
    {
      var i := |moved|;
      assert moved[..i] == moved;
      while i > 0
        invariant 0 <= i <= |moved|
        invariant AsDirectory(moved[..i]) + present == AsDirectory(moved) + old(present)
      {
        i := i - 1;
        assert moved[..i + 1][..i] == moved[..i];
        if moved[i].0 !in present {
          present := present[moved[i].0 := moved[i].1];
        }
      }
    }

    /** Re-check a report under the lock and, if the directory is exactly the one reported on,
    move every candidate. */
    method Sweep(retained: set<Id>, candidates: set<Id>, fails: set<Id>)
      returns (r: Result<Option<seq<Moved>>>)
      modifies this
      ensures r.Err? || r.value.None? ==> present == old(present)
      ensures r.Ok? && r.value.Some? ==>
                && old(present).Keys == retained + candidates && retained !! candidates
                && present == old(present) - candidates
                && AsDirectory(r.value.value) + present == old(present)
    {
      if !(retained !! candidates) { return Err(Permanent); }
      if present.Keys != retained + candidates { return Ok(None); }
      var moved := Move(candidates, fails);
      if moved.Err? { return Err(moved.error); }
      return Ok(Some(moved.value));
    }
  }

  /** A resolution that is not refused publishes the selected head's files. */
  lemma ResolutionPublishes(
    digest: Digest, d: Directory, expected: seq<Id>, selected: Id, minimum: nat, op: Operation,
    author: Identity, now: nat)
    requires BeginOperation(d, [selected], Some(expected), minimum) == Ok(op)
    ensures MergedFiles(op.originalFiles, [], {}) == op.originalFiles
    ensures Heads(d) == (set id | id in expected) && |expected| >= 2 && selected in d
    ensures var what := Decide(digest, d, op, op.originalFiles, author, now);
            && !what.Unchanged?
            && (what.Publish? ==>
                  && PublishedOver(digest, d, DirectoryAfter(digest, d, what), what.manifest)
                  && what.manifest.files == d[selected].files && what.manifest.author == author
                  && what.manifest.revision > minimum)
  {
    hide Heads, BlobsOf, Pruned, ValidSave, MaxRevision;
  }
}
