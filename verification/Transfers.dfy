/** Two loops around file transfers: checking that the blocks a server asks for make up the file,
and the table of directory prefixes in a file listing. */
module Transfers {
  // ----- Upload blocks -----------------------------------------------------------------------

  datatype Block = Block(offset: nat, length: nat, isPut: bool)

  function End(b: Block): nat { b.offset + b.length }

  predicate InBlock(b: Block, byte: nat) { b.offset <= byte < End(b) }

  ghost predicate Covered(blocks: seq<Block>, byte: nat) {
    exists i | 0 <= i < |blocks| :: InBlock(blocks[i], byte)
  }

  /** The blocks are in order, apart, inside the file and together all of it.  Only an empty file
  has an empty block, and then just one. */
  ghost predicate Partitions(blocks: seq<Block>, size: nat) {
    && blocks != [] && (size == 0 ==> |blocks| == 1)
    && (forall i | 0 <= i < |blocks| ::
          blocks[i].isPut && End(blocks[i]) <= size && (size > 0 ==> blocks[i].length > 0))
    && (forall i, j | 0 <= i < j < |blocks| :: End(blocks[i]) <= blocks[j].offset)
    && (forall byte | 0 <= byte < size :: Covered(blocks, byte))
  }

  /** Where a block has to start: where the one before it ends. */
  function StartOf(blocks: seq<Block>, i: nat): nat
    requires i <= |blocks|
  {
    if i == 0 then 0 else End(blocks[i - 1])
  }

  /** A block is well formed and follows the one before it. */
  ghost predicate Follows(blocks: seq<Block>, size: nat, i: nat) {
    && i < |blocks| && blocks[i].isPut && blocks[i].offset == StartOf(blocks, i)
    && End(blocks[i]) <= size && (size > 0 ==> blocks[i].length > 0)
  }

  ghost predicate Checked(blocks: seq<Block>, size: nat, n: nat) {
    n <= |blocks| && StartOf(blocks, n) <= size && forall i: nat | i < n :: Follows(blocks, size, i)
  }

  /** Accept blocks only when they partition the file. */
  method AcceptsBlocks(blocks: seq<Block>, size: nat) returns (ok: bool)
    ensures ok <==> Partitions(blocks, size)
  {
    if blocks == [] { return false; }
    var expected := 0;
    for i := 0 to |blocks|
      invariant Checked(blocks, size, i) && expected == StartOf(blocks, i)
      invariant i > 0 && size == 0 ==> |blocks| == 1
    {
      PartitionsImply(blocks, size, i);
      hide Partitions;
      var block := blocks[i];
      if !block.isPut { return false; }
      if block.offset != expected { return false; }
      var end := expected + block.length;
      if end > size || (size > 0 && block.length == 0) || (size == 0 && |blocks| != 1) {
        return false;
      }
      expected := end;
    }
    CheckedPartitionsIff(blocks, size);
    return expected == size;
  }

  /** What a partition asks of each block. */
  lemma PartitionsImply(blocks: seq<Block>, size: nat, i: nat)
    requires i < |blocks|
    ensures Partitions(blocks, size) ==>
              Follows(blocks, size, i) && (size == 0 ==> |blocks| == 1)
  {
    if Partitions(blocks, size) && size > 0 {
      var start := StartOf(blocks, i);
      assert start <= blocks[i].offset < size;
      assert Covered(blocks, start);
      var k :| 0 <= k < |blocks| && InBlock(blocks[k], start);
      NotBefore(blocks, i, k, start);
    }
  }

  /** In ordered blocks, a byte at a block's start position is in that block or in no block. */
  lemma NotBefore(blocks: seq<Block>, i: nat, k: nat, byte: nat)
    requires i < |blocks| && k < |blocks| && byte == StartOf(blocks, i)
    requires forall a, b | 0 <= a < b < |blocks| :: End(blocks[a]) <= blocks[b].offset
    requires InBlock(blocks[k], byte) && blocks[i].length > 0
    ensures byte >= blocks[i].offset
  {
    assert k < i - 1 ==> End(blocks[k]) <= blocks[i - 1].offset;
    assert k > i ==> End(blocks[i]) <= blocks[k].offset;
  }

  lemma {:induction false} EndsGrow(blocks: seq<Block>, size: nat, i: nat, j: nat)
    requires Checked(blocks, size, |blocks|) && i <= j < |blocks|
    ensures End(blocks[i]) <= End(blocks[j]) && (i < j ==> End(blocks[i]) <= blocks[j].offset)
  {
    if i < j {
      EndsGrow(blocks, size, i, j - 1);
      assert Follows(blocks, size, j);
    }
  }

  /** Blocks that follow each other partition the file exactly when the last ends with it. */
  lemma CheckedPartitionsIff(blocks: seq<Block>, size: nat)
    requires blocks != [] && Checked(blocks, size, |blocks|) && (size == 0 ==> |blocks| == 1)
    ensures Partitions(blocks, size) <==> StartOf(blocks, |blocks|) == size
  {
    var last := |blocks| - 1;
    forall i: nat | i < |blocks|
      ensures blocks[i].isPut && End(blocks[i]) <= size && (size > 0 ==> blocks[i].length > 0)
    {
      assert Follows(blocks, size, i);
    }
    forall i, j | 0 <= i < j < |blocks| ensures End(blocks[i]) <= blocks[j].offset {
      EndsGrow(blocks, size, i, j);
    }
    if End(blocks[last]) == size {
      forall byte | 0 <= byte < size ensures Covered(blocks, byte) {
        var k := BlockOf(blocks, size, byte, last);
      }
    } else {
      forall k | 0 <= k < |blocks| ensures !InBlock(blocks[k], End(blocks[last])) {
        EndsGrow(blocks, size, k, last);
      }
      assert !Covered(blocks, End(blocks[last]));
    }
  }

  /** The block that holds a byte. */
  lemma {:induction false} BlockOf(blocks: seq<Block>, size: nat, byte: nat, last: nat)
    returns (k: nat)
    requires Checked(blocks, size, |blocks|) && last < |blocks| && byte < End(blocks[last])
    ensures k < |blocks| && InBlock(blocks[k], byte)
  {
    k := last;
    assert Follows(blocks, size, last);
    if byte < blocks[last].offset {
      k := BlockOf(blocks, size, byte, last - 1);
    }
  }

  // ----- Path prefixes -------------------------------------------------------------------------

  type Path = string

  /** Split a path after its last separator. */
  function SplitPath(path: Path): (r: (Path, Path))
    ensures r.0 + r.1 == path && '/' !in r.1
    ensures r.0 != [] ==> r.0[|r.0| - 1] == '/'
  {
    if path == [] then ([], [])
    else
      var last := path[|path| - 1];
      assert path == path[..|path| - 1] + [last];
      if last == '/' then (path, [])
      else
        var (prefix, leaf) := SplitPath(path[..|path| - 1]);
        (prefix, leaf + [last])
  }

  /** No other split leaves a leaf without separators behind a directory. */
  lemma SplitUnique(path: Path, prefix: Path, leaf: Path)
    requires prefix + leaf == path && '/' !in leaf
    requires prefix != [] ==> prefix[|prefix| - 1] == '/'
    ensures SplitPath(path) == (prefix, leaf)
  {
    var (p, l) := SplitPath(path);
    NotLonger(p, l, prefix, leaf);
    NotLonger(prefix, leaf, p, l);
    assert p == path[..|p|] && prefix == path[..|prefix|];
    assert l == path[|p|..] && leaf == path[|prefix|..];
  }

  lemma NotLonger(p: Path, l: Path, prefix: Path, leaf: Path)
    requires p + l == prefix + leaf && '/' !in l
    requires prefix != [] ==> prefix[|prefix| - 1] == '/'
    ensures |prefix| <= |p|
  {
    var path := p + l;
    assert forall k | |p| <= k < |path| :: path[k] == l[k - |p|] && path[k] in l;
    assert prefix != [] ==> path[|prefix| - 1] == '/';
  }

  datatype FileInfo = FileInfo(leaf: Path, prefixIndex: nat)

  /** List files by leaf name and prefix index.  Every path can be put together again, no prefix
  is listed twice and none without a file. */
  method FileInfos(paths: seq<Path>) returns (infos: seq<FileInfo>, prefixes: seq<Path>)
    ensures |infos| == |paths|
    ensures forall i | 0 <= i < |paths| :: PutsTogether(infos[i], prefixes, paths[i])
    ensures forall i, j | 0 <= i < j < |prefixes| :: prefixes[i] != prefixes[j]
    ensures forall p: nat | p < |prefixes| :: Uses(infos, p)
  {
    infos, prefixes := [], [];
    var indexes: map<Path, nat> := map[];
    for n := 0 to |paths|
      invariant |infos| == n
      invariant forall i | 0 <= i < n :: PutsTogether(infos[i], prefixes, paths[i])
      invariant Indexed(indexes, prefixes)
      invariant forall p: nat | p < |prefixes| :: Uses(infos, p)
    {
      hide PutsTogether, Indexed, Uses;
      var (prefix, leaf) := SplitPath(paths[n]);
      IndexedHas(indexes, prefixes, prefix);
      var index := if prefix in indexes then indexes[prefix] else |prefixes|;
      ghost var before := prefixes;
      if prefix !in indexes {
        IndexedMore(indexes, prefixes, prefix);
        prefixes := prefixes + [prefix];
        indexes := indexes[prefix := index];
      }
      forall i | 0 <= i < n ensures PutsTogether(infos[i], prefixes, paths[i]) {
        StillTogether(infos[i], before, prefixes, paths[i]);
      }
      UsesMore(infos, FileInfo(leaf, index));
      NowTogether(leaf, index, prefixes, paths[n]);
      infos := infos + [FileInfo(leaf, index)];
    }
  }

  ghost predicate PutsTogether(info: FileInfo, prefixes: seq<Path>, path: Path) {
    && info.prefixIndex < |prefixes| && prefixes[info.prefixIndex] + info.leaf == path
    && '/' !in info.leaf
  }

  lemma StillTogether(info: FileInfo, prefixes: seq<Path>, more: seq<Path>, path: Path)
    requires PutsTogether(info, prefixes, path) && prefixes <= more
    ensures PutsTogether(info, more, path)
  {
  }

  lemma NowTogether(leaf: Path, index: nat, prefixes: seq<Path>, path: Path)
    requires index < |prefixes| && prefixes[index] + leaf == path && '/' !in leaf
    ensures PutsTogether(FileInfo(leaf, index), prefixes, path)
  {
  }

  /** The index finds every prefix where it is, and no prefix is listed twice. */
  ghost predicate Indexed(indexes: map<Path, nat>, prefixes: seq<Path>) {
    && (forall i | 0 <= i < |prefixes| :: prefixes[i] in indexes && indexes[prefixes[i]] == i)
    && (forall p | p in indexes :: indexes[p] < |prefixes| && prefixes[indexes[p]] == p)
  }

  lemma IndexedHas(indexes: map<Path, nat>, prefixes: seq<Path>, prefix: Path)
    requires Indexed(indexes, prefixes)
    ensures prefix in indexes ==>
              indexes[prefix] < |prefixes| && prefixes[indexes[prefix]] == prefix
  {
  }

  lemma IndexedMore(indexes: map<Path, nat>, prefixes: seq<Path>, prefix: Path)
    requires Indexed(indexes, prefixes) && prefix !in indexes
    ensures Indexed(indexes[prefix := |prefixes|], prefixes + [prefix])
  {
  }

  ghost predicate Uses(infos: seq<FileInfo>, p: nat) {
    exists i | 0 <= i < |infos| :: infos[i].prefixIndex == p
  }

  lemma UsesMore(infos: seq<FileInfo>, info: FileInfo)
    ensures Uses(infos + [info], info.prefixIndex)
    ensures forall p | Uses(infos, p) :: Uses(infos + [info], p)
  {
    var more := infos + [info];
    assert more[|infos|] == info;
    forall p | Uses(infos, p) ensures Uses(more, p) {
      var i :| 0 <= i < |infos| && infos[i].prefixIndex == p;
      assert more[i].prefixIndex == p;
    }
  }
}
