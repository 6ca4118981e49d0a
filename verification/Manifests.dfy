/** The manifest DAG of one app: heads, revisions, and what garbage collection may remove.

A save is an immutable manifest stored under the SHA-256 of its bytes.  The digest is a
collision-free function here, so an id stands for exactly one manifest on every device.
*/
module Manifests {

  type Id = nat
  type Path = string
  type Hash = string

  datatype StoredFile = StoredFile(sha1: Hash, rawSize: nat, mtime: int, platforms: nat)

  type Files = map<Path, StoredFile>

  datatype Identity = Identity(clientId: nat, machineName: string)

  datatype Manifest = Manifest(
    revision: nat, parents: set<Id>, author: Identity, createdAt: nat, files: Files)

  /** The manifests present in an app directory, by id. */
  type Directory = map<Id, Manifest>

  type Digest = Manifest -> Id

  ghost predicate CollisionFree(digest: Digest) {
    forall a, b :: digest(a) == digest(b) ==> a == b
  }

  predicate HasChild(d: Directory, id: Id) {
    exists c | c in d :: id in d[c].parents
  }

  /** The manifests that no present manifest names as a parent. */
  function Heads(d: Directory): (heads: set<Id>)
    ensures heads <= d.Keys
  {
    set id | id in d && !HasChild(d, id)
  }

  ghost function MaxRevision(d: Directory): (r: nat)
    ensures forall id | id in d :: d[id].revision <= r
    ensures r == 0 || exists id | id in d :: d[id].revision == r
    decreases |d|
  {
    if d == map[] then 0
    else
      var id :| id in d;
      var rest := MaxRevision(d - {id});
      assert forall k | k in d - {id} :: (d - {id})[k] == d[k];
      assert forall k | k in d :: k == id || k in d - {id};
      if d[id].revision > rest then d[id].revision else rest
  }

  /** Every manifest ever published, on any device: closed under parents, and a child's
  revision exceeds every parent's. */
  ghost predicate GoodHistory(digest: Digest, history: Directory) {
    && (forall id | id in history :: digest(history[id]) == id && history[id].revision >= 1)
    && (forall c, p | c in history && p in history[c].parents ::
          p in history && history[p].revision < history[c].revision)
  }

  /** The directory holds only genuine manifests. */
  predicate Held(history: Directory, d: Directory) {
    forall id | id in d :: id in history && d[id] == history[id]
  }

  // ----- Every manifest reaches a head ---------------------------------------------------

  /** A walk from parent to child through manifests of `d`. */
  ghost predicate IsWalk(d: Directory, walk: seq<Id>) {
    && |walk| > 0
    && (forall i | 0 <= i < |walk| :: walk[i] in d)
    && (forall i | 0 <= i < |walk| - 1 :: walk[i] in d[walk[i + 1]].parents)
  }

  ghost predicate Reaches(d: Directory, from: Id, to: Id) {
    exists walk :: IsWalk(d, walk) && walk[0] == from && walk[|walk| - 1] == to
  }

  lemma ReachesSelf(d: Directory, id: Id)
    requires id in d
    ensures Reaches(d, id, id)
  {
    assert IsWalk(d, [id]);
  }

  lemma ReachesTransitive(d: Directory, a: Id, b: Id, c: Id)
    requires Reaches(d, a, b) && Reaches(d, b, c)
    ensures Reaches(d, a, c)
  {
    var p :| IsWalk(d, p) && p[0] == a && p[|p| - 1] == b;
    var q :| IsWalk(d, q) && q[0] == b && q[|q| - 1] == c;
    var walk := p + q[1..];
    assert walk[|walk| - 1] == c;
    forall i | 0 <= i < |walk| - 1 ensures walk[i] in d[walk[i + 1]].parents {
      if i >= |p| - 1 {
        assert walk[i] == q[i - |p| + 1] && walk[i + 1] == q[i - |p| + 2];
      }
    }
    assert IsWalk(d, walk);
  }

  lemma ReachesWider(d: Directory, history: Directory, a: Id, b: Id)
    requires Held(history, d) && Reaches(d, a, b)
    ensures Reaches(history, a, b)
  {
    var walk :| IsWalk(d, walk) && walk[0] == a && walk[|walk| - 1] == b;
    assert IsWalk(history, walk);
  }

  /** No save is hidden: following present children from any present manifest ends at a head
  of at least its revision. */
  lemma {:induction false} ReachesHead(digest: Digest, history: Directory, d: Directory, id: Id)
    returns (head: Id)
    requires GoodHistory(digest, history) && Held(history, d) && id in d
    ensures head in Heads(d) && Reaches(d, id, head)
    ensures head == id || d[id].revision < d[head].revision
    decreases MaxRevision(d) - d[id].revision
  {
    if HasChild(d, id) {
      var child :| child in d && id in d[child].parents;
      head := ReachesHead(digest, history, d, child);
      assert IsWalk(d, [id, child]);
      ReachesTransitive(d, id, child, head);
    } else {
      head := id;
      ReachesSelf(d, id);
    }
  }

  /** The largest present revision is always attained at a head. */
  lemma MaxRevisionAtHead(digest: Digest, history: Directory, d: Directory) returns (head: Id)
    requires GoodHistory(digest, history) && Held(history, d) && d != map[]
    ensures head in Heads(d) && d[head].revision == MaxRevision(d)
  {
    var some :| some in d;
    assert d[some].revision >= 1;
    var top :| top in d && d[top].revision == MaxRevision(d);
    head := ReachesHead(digest, history, d, top);
  }

  lemma NoHeadsIffEmpty(digest: Digest, history: Directory, d: Directory)
    requires GoodHistory(digest, history) && Held(history, d)
    ensures Heads(d) == {} <==> d == map[]
    ensures MaxRevision(d) == 0 <==> d == map[]
  {
    if d != map[] {
      var head := MaxRevisionAtHead(digest, history, d);
      assert d[head].revision >= 1;
    }
  }

  /** With one head, that head carries the largest revision and every present manifest is one
  of its ancestors or itself. */
  lemma SingleHead(digest: Digest, history: Directory, d: Directory, head: Id)
    requires GoodHistory(digest, history) && Held(history, d) && Heads(d) == {head}
    ensures head in d && d[head].revision == MaxRevision(d)
    ensures forall id | id in d ::
              Reaches(d, id, head) && (id == head || d[id].revision < d[head].revision)
  {
    assert head in Heads(d);
    var top := MaxRevisionAtHead(digest, history, d);
    forall id | id in d
      ensures Reaches(d, id, head) && (id == head || d[id].revision < d[head].revision)
    {
      var h := ReachesHead(digest, history, d, id);
    }
  }

  /** Two different saves published over the same parents are both heads of every directory
  that holds both and no child of either, so that directory is conflicted. */
  lemma ConcurrentSavesConflict(
    digest: Digest, history: Directory, d: Directory, a: Id, b: Id)
    requires GoodHistory(digest, history) && Held(history, d)
    requires a in d && b in d && a != b && d[a].parents == d[b].parents
    requires forall c | c in d && c != a && c != b :: a !in d[c].parents && b !in d[c].parents
    ensures a in Heads(d) && b in Heads(d) && |Heads(d)| >= 2
  {
    assert a !in d[a].parents && b !in d[b].parents;
    var rest := Heads(d) - {a, b};
    assert Heads(d) == rest + {a, b};
  }

  /** Adding a manifest retires the heads it names and adds itself unless it has a child. */
  lemma HeadsOfExtension(d: Directory, id: Id, m: Manifest)
    requires id !in d && id !in m.parents
    ensures Heads(d[id := m]) == Heads(d) - m.parents + (if HasChild(d, id) then {} else {id})
  {
    var e := d[id := m];
    forall x | x in e ensures HasChild(e, x) <==> HasChild(d, x) || x in m.parents {
      assert e[id] == m;
      assert forall c | c in d :: e[c] == d[c];
      if HasChild(d, x) {
        var c :| c in d && x in d[c].parents;
        assert e[c] == d[c];
      }
    }
  }

  // ----- Garbage collection --------------------------------------------------------------

  /** The heads and the present direct parents of heads. */
  function Retained(d: Directory): set<Id> {
    Heads(d) + set id, h | h in Heads(d) && id in d[h].parents && id in d :: id
  }

  function Candidates(d: Directory): set<Id> {
    d.Keys - Retained(d)
  }

  function Swept(d: Directory): Directory {
    d - Candidates(d)
  }

  lemma CandidatesHaveChildren(d: Directory, id: Id)
    requires id in Candidates(d)
    ensures id in d && HasChild(d, id)
    ensures forall h | h in Heads(d) :: id !in d[h].parents
  {
    assert id !in Heads(d);
  }

  /** Taking out manifests that are not heads keeps the head set exactly when every manifest
  that stays and had a child keeps one. */
  lemma RemovalKeepsHeadsIff(d: Directory, removed: set<Id>)
    requires removed !! Heads(d)
    ensures Heads(d - removed) == Heads(d)
       <==> forall id | id in d && id !in removed && HasChild(d, id) :: HasChild(d - removed, id)
  {
    var left := d - removed;
    assert forall id | id in left :: left[id] == d[id];
    assert forall id | id in left && HasChild(left, id) :: HasChild(d, id);
    if forall id | id in d && id !in removed && HasChild(d, id) :: HasChild(left, id) {
      forall id ensures id in Heads(left) <==> id in Heads(d) {
      }
    } else {
      var id :| id in d && id !in removed && HasChild(d, id) && !HasChild(left, id);
      assert id in Heads(left) && id !in Heads(d);
    }
  }

  /** A complete sweep keeps the head set, on every directory. */
  lemma SweepKeepsHeads(d: Directory)
    ensures Heads(Swept(d)) == Heads(d)
  {
    forall id | id in d && id !in Candidates(d) && HasChild(d, id)
      ensures HasChild(Swept(d), id)
    {
      var h :| h in Heads(d) && id in d[h].parents;
      assert h in Swept(d) && Swept(d)[h] == d[h];
    }
    RemovalKeepsHeadsIff(d, Candidates(d));
  }

  /** A complete sweep keeps the largest revision. */
  lemma SweepKeepsMaxRevision(digest: Digest, history: Directory, d: Directory)
    requires GoodHistory(digest, history) && Held(history, d)
    ensures MaxRevision(Swept(d)) == MaxRevision(d)
  {
    var left := Swept(d);
    assert forall id | id in left :: left[id] == d[id];
    if d != map[] {
      var head := MaxRevisionAtHead(digest, history, d);
      assert head in left;
    }
  }

  /** An interrupted sweep can raise a dead manifest to a head: in c1 <- c2 <- p <- h, the
  ids c2 and c1 are candidates, and moving c2 first leaves c1 without a child. */
  lemma PartialSweepCreatesHead()
    ensures exists d: Directory, moved: set<Id> ::
              moved < Candidates(d) && Heads(d - moved) != Heads(d)
  {
    var who := Identity(1, "deck");
    var d: Directory := map[
      0 := Manifest(2, {9}, who, 0, map[]),
      9 := Manifest(1, {}, who, 0, map[]),
      5 := Manifest(3, {0}, who, 0, map[]),
      7 := Manifest(4, {5}, who, 0, map[])];
    assert 9 in d[0].parents && 0 in d[5].parents && 5 in d[7].parents;
    assert Heads(d) == {7} by {
      assert HasChild(d, 9) && HasChild(d, 0) && HasChild(d, 5) && !HasChild(d, 7);
    }
    assert Retained(d) == {7, 5};
    assert Candidates(d) == {0, 9};
    var moved := {0};
    assert moved < Candidates(d);
    assert 9 in d - moved && !HasChild(d - moved, 9);
    assert 9 in Heads(d - moved);
  }

  /** Importing a manifest after a sweep gives the heads that importing it before would have
  given exactly when the sweep did not take the last child of the imported manifest: a late
  ancestor of swept manifests appears as a second head. */
  lemma ImportAfterSweepIff(d: Directory, id: Id, m: Manifest)
    requires id !in d && id !in m.parents
    ensures Heads(Swept(d)[id := m]) == Heads(d[id := m])
       <==> (HasChild(d, id) ==> HasChild(Swept(d), id))
  {
    SweepKeepsHeads(d);
    HeadsOfExtension(d, id, m);
    HeadsOfExtension(Swept(d), id, m);
    if HasChild(Swept(d), id) {
      var c :| c in Swept(d) && id in Swept(d)[c].parents;
      assert c in d && id in d[c].parents;
    }
    assert id !in Heads(d);
  }
}
