/** Achievements and stats shared through a folder: each device keeps one rolling record, and
readers reduce across devices.  The theorems compare that with keeping every observation. */
module DeviceState {
  import opened Wrappers

  type Key = string

  datatype Achievement = Achievement(unlocked: bool, unlockedAt: Option<int>)

  datatype Stat = Stat(valueType: string, value: string)

  /** What one device saw at one moment, for one app.  Keys are unique in a valid record. */
  datatype Record = Record(
    client: nat, commit: nat, observedAt: int, achievements: map<Key, Achievement>,
    stats: map<Key, Stat>)

  // ----- The merge order -----------------------------------------------------------------

  /** Newest first, then the higher device id, then the commit digest. */
  datatype Order = Order(observedAt: int, client: nat, commit: nat)

  predicate Less(a: Order, b: Order) {
    || a.observedAt < b.observedAt
    || (a.observedAt == b.observedAt && a.client < b.client)
    || (a.observedAt == b.observedAt && a.client == b.client && a.commit < b.commit)
  }

  predicate AtMost(a: Order, b: Order) {
    a == b || Less(a, b)
  }

  function OrderOf(r: Record): Order {
    Order(r.observedAt, r.client, r.commit)
  }

  /** A valid record has an unlock time only on unlocked achievements. */
  predicate Valid(r: Record) {
    forall k | k in r.achievements ::
      r.achievements[k].unlockedAt.Some? ==> r.achievements[k].unlocked
  }

  // ----- What a reduction means, independently of how it is computed ---------------------

  type LatestStats = map<Key, (Stat, Order)>

  /** The value and position of a record listing `k` that no other listing record exceeds. */
  ghost predicate Wins(records: set<Record>, k: Key, stat: Stat, order: Order) {
    && (exists r | r in records && k in r.stats :: OrderOf(r) == order && r.stats[k] == stat)
    && (forall r | r in records && k in r.stats :: AtMost(OrderOf(r), order))
  }

  ghost predicate IsLatest(records: set<Record>, latest: LatestStats) {
    && (forall k :: k in latest <==> exists r | r in records :: k in r.stats)
    && (forall k | k in latest :: Wins(records, k, latest[k].0, latest[k].1))
  }

  datatype Merged = Merged(unlocked: bool, unlockedAt: Option<int>, observedAt: int)

  /** Unlocked if any record says so, at the earliest time any record knows. */
  ghost predicate IsUnlock(records: set<Record>, k: Key, unlocked: bool, at: Option<int>) {
    && (unlocked <==> exists r | r in records && k in r.achievements :: r.achievements[k].unlocked)
    && (at.Some? <==>
          exists r | r in records && k in r.achievements :: r.achievements[k].unlockedAt.Some?)
    && (at.Some? ==>
          && (exists r | r in records && k in r.achievements :: r.achievements[k].unlockedAt == at)
          && (forall r | r in records && k in r.achievements
                         && r.achievements[k].unlockedAt.Some? ::
                at.value <= r.achievements[k].unlockedAt.value))
  }

  ghost predicate IsLastSeen(records: set<Record>, k: Key, at: int) {
    && (exists r | r in records && k in r.achievements :: r.observedAt == at)
    && (forall r | r in records && k in r.achievements :: r.observedAt <= at)
  }

  ghost predicate IsMerged(records: set<Record>, merged: map<Key, Merged>) {
    && (forall k :: k in merged <==> exists r | r in records :: k in r.achievements)
    && (forall k | k in merged ::
          && IsUnlock(records, k, merged[k].unlocked, merged[k].unlockedAt)
          && IsLastSeen(records, k, merged[k].observedAt))
  }

  /** The commit digest covers the content, so equal positions in the order mean equal records. */
  ghost predicate Consistent(records: set<Record>) {
    forall r, s | r in records && s in records && OrderOf(r) == OrderOf(s) :: r == s
  }

  /** Records at different positions have one reduction, whatever the order of reading. */
  lemma ReductionUnique(records: set<Record>, a: LatestStats, b: LatestStats,
                        m: map<Key, Merged>, n: map<Key, Merged>)
    requires Consistent(records)
    requires IsLatest(records, a) && IsLatest(records, b)
    requires IsMerged(records, m) && IsMerged(records, n)
    ensures a == b && m == n
  {
    hide Wins, IsUnlock, IsLastSeen, Consistent;
    forall k | k in a ensures k in b && a[k] == b[k] {
      assert k in b;
      WinnerUnique(records, k, a[k].0, a[k].1, b[k].0, b[k].1);
    }
    forall k | k in m ensures k in n && m[k] == n[k] {
      assert k in n;
      MergedUnique(records, k, m[k], n[k]);
    }
    assert a.Keys == b.Keys && m.Keys == n.Keys;
  }

  lemma WinnerUnique(records: set<Record>, k: Key, a: Stat, x: Order, b: Stat, y: Order)
    requires Consistent(records) && Wins(records, k, a, x) && Wins(records, k, b, y)
    ensures a == b && x == y
  {
    var r :| r in records && k in r.stats && OrderOf(r) == x && r.stats[k] == a;
    var s :| s in records && k in s.stats && OrderOf(s) == y && s.stats[k] == b;
    assert AtMost(x, y) && AtMost(y, x);
    assert r == s;
  }

  lemma MergedUnique(records: set<Record>, k: Key, m: Merged, n: Merged)
    requires IsUnlock(records, k, m.unlocked, m.unlockedAt) && IsLastSeen(records, k, m.observedAt)
    requires IsUnlock(records, k, n.unlocked, n.unlockedAt) && IsLastSeen(records, k, n.observedAt)
    ensures m == n
  {
  }

  // ----- One rolling record per device ---------------------------------------------------

  function Earliest(a: Option<int>, b: Option<int>): Option<int> {
    if a.Some? && b.Some? then Some(if a.value < b.value then a.value else b.value)
    else if a.Some? then a else b
  }

  function MergeUnlock(a: Achievement, b: Achievement): Achievement {
    var unlocked := a.unlocked || b.unlocked;
    Achievement(unlocked, if unlocked then Earliest(a.unlockedAt, b.unlockedAt) else None)
  }

  /** The order of one device's own observations. */
  predicate Before(a: Record, b: Record) {
    a.observedAt < b.observedAt || (a.observedAt == b.observedAt && a.commit < b.commit)
  }

  function FoldedAchievements(existing: Record, incoming: Record): map<Key, Achievement> {
    map k | k in existing.achievements.Keys + incoming.achievements.Keys ::
      if k !in existing.achievements then incoming.achievements[k]
      else if k !in incoming.achievements then existing.achievements[k]
      else MergeUnlock(existing.achievements[k], incoming.achievements[k])
  }

  function FoldedStats(existing: Record, incoming: Record): map<Key, Stat> {
    map k | k in existing.stats.Keys + incoming.stats.Keys ::
      if k in incoming.stats && (k !in existing.stats || Before(existing, incoming))
      then incoming.stats[k] else existing.stats[k]
  }

  /** Fold a new observation into the record a device already has. */
  function Fold(existing: Record, incoming: Record): Record {
    var latest := if Before(incoming, existing) then existing else incoming;
    Record(incoming.client, latest.commit, latest.observedAt,
           FoldedAchievements(existing, incoming), FoldedStats(existing, incoming))
  }

  type Folder = map<nat, Record>

  function Upload(folder: Folder, r: Record): Folder {
    folder[r.client := if r.client in folder then Fold(folder[r.client], r) else r]
  }

  function FolderAfter(uploads: seq<Record>): Folder {
    if uploads == [] then map[]
    else Upload(FolderAfter(uploads[..|uploads| - 1]), uploads[|uploads| - 1])
  }

  function SetOf(records: seq<Record>): set<Record> {
    set r | r in records
  }

  /** The observations one device made. */
  function From(records: set<Record>, client: nat): set<Record> {
    set r | r in records && r.client == client
  }

  /** `r` is the newest observation of its device. */
  ghost predicate Newest(records: set<Record>, r: Record) {
    && r in records
    && forall s | s in records && s.client == r.client :: AtMost(OrderOf(s), OrderOf(r))
  }

  ghost predicate ListsStat(records: set<Record>, client: nat, k: Key) {
    exists r | r in records && r.client == client :: k in r.stats
  }

  ghost predicate ListsAchievement(records: set<Record>, client: nat, k: Key) {
    exists r | r in records && r.client == client :: k in r.achievements
  }

  /** How a rolling record relates to the achievements folded into it: it lists every one ever
  listed and knows every unlock. */
  ghost predicate KnowsUnlocks(records: set<Record>, client: nat, rolling: Record) {
    && rolling.client == client && Valid(rolling)
    && (forall k :: k in rolling.achievements <==> ListsAchievement(records, client, k))
    && (forall k | k in rolling.achievements ::
          IsUnlock(From(records, client), k, rolling.achievements[k].unlocked,
                   rolling.achievements[k].unlockedAt))
  }

  /** How it relates to the observations: it also lists every stat ever listed, stands at the
  position of the newest observation, and keeps that one's stats. */
  ghost predicate Summarises(records: set<Record>, client: nat, rolling: Record) {
    && KnowsUnlocks(records, client, rolling)
    && (forall k :: k in rolling.stats <==> ListsStat(records, client, k))
    && (exists newest | newest in records && newest.client == client ::
          StandsFor(records, newest, rolling))
  }

  ghost predicate StandsFor(records: set<Record>, newest: Record, rolling: Record) {
    && Newest(records, newest) && OrderOf(rolling) == OrderOf(newest)
    && forall k | k in newest.stats :: k in rolling.stats && rolling.stats[k] == newest.stats[k]
  }

  // ----- Folding keeps the summary -------------------------------------------------------

  lemma FirstKnows(records: set<Record>, r: Record)
    requires Valid(r) && From(records, r.client) == {r}
    ensures KnowsUnlocks(records, r.client, r)
  {
    assert r in From(records, r.client);
    forall s | s in records && s.client == r.client ensures s == r {
      assert s in From(records, r.client);
    }
  }

  lemma FirstSummarises(records: set<Record>, r: Record)
    requires Valid(r) && From(records, r.client) == {r}
    ensures Summarises(records, r.client, r)
  {
    FirstKnows(records, r);
    hide KnowsUnlocks;
    assert r in From(records, r.client);
    forall s | s in records && s.client == r.client ensures s == r {
      assert s in From(records, r.client);
    }
    assert StandsFor(records, r, r);
  }

  lemma FoldStandsFor(records: set<Record>, existing: Record, incoming: Record, newest: Record)
    requires Consistent(records + {incoming}) && existing.client == incoming.client
    requires StandsFor(records, newest, existing) && newest.client == existing.client
    ensures var all := records + {incoming};
            exists top | top in all && top.client == incoming.client ::
              StandsFor(all, top, Fold(existing, incoming))
  {
    var all := records + {incoming};
    var rolling := Fold(existing, incoming);
    if Before(incoming, existing) {
      assert StandsFor(all, newest, rolling);
    } else if Before(existing, incoming) {
      assert StandsFor(all, incoming, rolling);
    } else {
      assert OrderOf(newest) == OrderOf(incoming);
      assert newest == incoming;
      assert StandsFor(all, incoming, rolling);
    }
  }

  lemma FoldUnlock(records: set<Record>, existing: Record, incoming: Record, k: Key)
    requires Valid(existing) && Valid(incoming) && existing.client == incoming.client
    requires k in existing.achievements ==>
               IsUnlock(From(records, existing.client), k, existing.achievements[k].unlocked,
                        existing.achievements[k].unlockedAt)
    requires k in existing.achievements <==> ListsAchievement(records, existing.client, k)
    requires k in Fold(existing, incoming).achievements
    ensures var a := Fold(existing, incoming).achievements[k];
            IsUnlock(From(records + {incoming}, incoming.client), k, a.unlocked, a.unlockedAt)
  {
    var from, all := From(records, existing.client), From(records + {incoming}, incoming.client);
    assert all == from + {incoming};
    if k !in existing.achievements {
      assert forall r | r in from :: k !in r.achievements;
      assert forall r | r in all && k in r.achievements :: r == incoming;
    } else if k in incoming.achievements {
      UnlockOfUnion(from, incoming, k, existing.achievements[k]);
    } else {
      assert forall r | r in all && k in r.achievements :: r in from;
    }
  }

  lemma UnlockOfUnion(records: set<Record>, incoming: Record, k: Key, a: Achievement)
    requires IsUnlock(records, k, a.unlocked, a.unlockedAt) && k in incoming.achievements
    requires a.unlockedAt.Some? ==> a.unlocked
    requires Valid(incoming)
    ensures var m := MergeUnlock(a, incoming.achievements[k]);
            IsUnlock(records + {incoming}, k, m.unlocked, m.unlockedAt)
  {
    var b := incoming.achievements[k];
    var m := MergeUnlock(a, b);
    var all := records + {incoming};
    assert incoming in all;
    if a.unlocked {
      var r :| r in records && k in r.achievements && r.achievements[k].unlocked;
      assert r in all;
    }
    if a.unlockedAt.Some? {
      var r :| r in records && k in r.achievements && r.achievements[k].unlockedAt == a.unlockedAt;
      assert r in all;
    }
  }

  lemma FoldKnows(records: set<Record>, existing: Record, incoming: Record)
    requires Valid(incoming) && KnowsUnlocks(records, incoming.client, existing)
    ensures KnowsUnlocks(records + {incoming}, incoming.client, Fold(existing, incoming))
  {
    hide IsUnlock, Before, MergeUnlock, FoldedStats;
    var all := records + {incoming};
    var c := incoming.client;
    var rolling := Fold(existing, incoming);
    forall k ensures k in rolling.achievements <==> ListsAchievement(all, c, k) {
      assert ListsAchievement(all, c, k) <==> ListsAchievement(records, c, k)
                                              || k in incoming.achievements;
    }
    forall k | k in rolling.achievements
      ensures IsUnlock(From(all, c), k, rolling.achievements[k].unlocked,
                       rolling.achievements[k].unlockedAt)
    {
      FoldUnlock(records, existing, incoming, k);
    }
    FoldValid(existing, incoming);
  }

  lemma FoldSummarises(records: set<Record>, existing: Record, incoming: Record)
    requires Consistent(records + {incoming}) && Valid(incoming)
    requires Summarises(records, incoming.client, existing)
    ensures Summarises(records + {incoming}, incoming.client, Fold(existing, incoming))
  {
    hide Consistent, KnowsUnlocks, StandsFor, Fold, ListsStat;
    FoldKnows(records, existing, incoming);
    SameClient(records, incoming.client, existing);
    var newest :| newest in records && newest.client == incoming.client
                  && StandsFor(records, newest, existing);
    FoldStandsFor(records, existing, incoming, newest);
    FoldLists(records, existing, incoming);
  }

  lemma SameClient(records: set<Record>, client: nat, rolling: Record)
    requires KnowsUnlocks(records, client, rolling)
    ensures rolling.client == client
  {
  }

  lemma FoldLists(records: set<Record>, existing: Record, incoming: Record)
    requires forall k :: k in existing.stats <==> ListsStat(records, incoming.client, k)
    ensures forall k :: k in Fold(existing, incoming).stats
                        <==> ListsStat(records + {incoming}, incoming.client, k)
  {
    hide Before, FoldedAchievements;
    var all := records + {incoming};
    var c := incoming.client;
    forall k ensures k in Fold(existing, incoming).stats <==> ListsStat(all, c, k) {
      assert ListsStat(all, c, k) <==> ListsStat(records, c, k) || k in incoming.stats;
    }
  }

  lemma FoldValid(existing: Record, incoming: Record)
    requires Valid(existing) && Valid(incoming)
    ensures Valid(Fold(existing, incoming))
  {
  }

  lemma OtherKnows(records: set<Record>, incoming: Record, client: nat, rolling: Record)
    requires client != incoming.client && KnowsUnlocks(records, client, rolling)
    ensures KnowsUnlocks(records + {incoming}, client, rolling)
  {
    hide IsUnlock;
    var all := records + {incoming};
    assert From(all, client) == From(records, client);
    forall k ensures ListsAchievement(all, client, k) <==> ListsAchievement(records, client, k) {
    }
  }

  lemma OtherSummarises(records: set<Record>, incoming: Record, client: nat, rolling: Record)
    requires client != incoming.client && Summarises(records, client, rolling)
    ensures Summarises(records + {incoming}, client, rolling)
  {
    OtherKnows(records, incoming, client, rolling);
    hide KnowsUnlocks;
    var all := records + {incoming};
    var newest :| newest in records && newest.client == client
                  && StandsFor(records, newest, rolling);
    assert StandsFor(all, newest, rolling);
    forall k ensures ListsStat(all, client, k) <==> ListsStat(records, client, k) {
    }
  }

  /** The folder has one record for each device that uploaded. */
  ghost predicate HasAll(records: set<Record>, folder: Folder) {
    forall c :: c in folder <==> exists r | r in records :: r.client == c
  }

  ghost predicate FolderKnows(records: set<Record>, folder: Folder) {
    HasAll(records, folder) && forall c | c in folder :: KnowsUnlocks(records, c, folder[c])
  }

  ghost predicate FolderSummarises(records: set<Record>, folder: Folder) {
    HasAll(records, folder) && forall c | c in folder :: Summarises(records, c, folder[c])
  }

  lemma UploadHasAll(records: set<Record>, folder: Folder, r: Record)
    requires HasAll(records, folder)
    ensures HasAll(records + {r}, Upload(folder, r))
  {
    hide Fold;
    var all, after := records + {r}, Upload(folder, r);
    forall c ensures c in after <==> exists s | s in all :: s.client == c {
      assert c in folder ==> exists s | s in all :: s.client == c;
      if c == r.client {
        assert r in all;
      }
    }
  }

  lemma UploadKnows(records: set<Record>, folder: Folder, r: Record)
    requires Valid(r) && FolderKnows(records, folder)
    ensures FolderKnows(records + {r}, Upload(folder, r))
  {
    UploadHasAll(records, folder, r);
    var all, after := records + {r}, Upload(folder, r);
    forall c | c in after ensures KnowsUnlocks(all, c, after[c]) {
      hide KnowsUnlocks, Fold, Valid;
      if c != r.client {
        OtherKnows(records, r, c, folder[c]);
      } else if c in folder {
        FoldKnows(records, folder[c], r);
      } else {
        assert From(all, c) == {r};
        FirstKnows(all, r);
      }
    }
    hide KnowsUnlocks, HasAll;
  }

  lemma UploadSummarises(records: set<Record>, folder: Folder, r: Record)
    requires Consistent(records + {r}) && Valid(r) && FolderSummarises(records, folder)
    ensures FolderSummarises(records + {r}, Upload(folder, r))
  {
    hide Summarises, Consistent, Fold;
    UploadHasAll(records, folder, r);
    var all, after := records + {r}, Upload(folder, r);
    forall c | c in after ensures Summarises(all, c, after[c]) {
      if c != r.client {
        OtherSummarises(records, r, c, folder[c]);
      } else if c in folder {
        FoldSummarises(records, folder[c], r);
      } else {
        assert From(all, c) == {r};
        FirstSummarises(all, r);
      }
    }
  }

  lemma {:induction false} FolderAfterKnows(uploads: seq<Record>)
    requires forall r | r in uploads :: Valid(r)
    ensures FolderKnows(SetOf(uploads), FolderAfter(uploads))
  {
    hide Valid, FolderKnows, Upload;
    if uploads == [] {
      NothingUploaded();
    } else {
      var front, last := uploads[..|uploads| - 1], uploads[|uploads| - 1];
      assert uploads == front + [last];
      assert SetOf(uploads) == SetOf(front) + {last};
      assert last in uploads && forall r | r in front :: r in uploads;
      FolderAfterKnows(front);
      UploadKnows(SetOf(front), FolderAfter(front), last);
    }
  }

  lemma {:induction false} FolderAfterSummarises(uploads: seq<Record>)
    requires Consistent(SetOf(uploads)) && forall r | r in uploads :: Valid(r)
    ensures FolderSummarises(SetOf(uploads), FolderAfter(uploads))
  {
    hide Valid, FolderSummarises, Upload;
    if uploads == [] {
      NothingUploaded();
    } else {
      var front, last := uploads[..|uploads| - 1], uploads[|uploads| - 1];
      assert uploads == front + [last];
      assert SetOf(uploads) == SetOf(front) + {last};
      assert last in uploads && forall r | r in front :: r in uploads;
      FolderAfterSummarises(front);
      UploadSummarises(SetOf(front), FolderAfter(front), last);
    }
  }

  lemma NothingUploaded()
    ensures FolderSummarises(SetOf([]), map[]) && FolderKnows(SetOf([]), map[])
  {
  }

  // ----- The order of reading ------------------------------------------------------------

  /** Each record lies in its own device's file. */
  predicate Own(folder: Folder) {
    forall c | c in folder :: folder[c].client == c
  }

  lemma {:induction false} FolderIsOwn(uploads: seq<Record>)
    ensures Own(FolderAfter(uploads))
  {
    if uploads != [] { FolderIsOwn(uploads[..|uploads| - 1]); }
  }

  /** Whatever was uploaded, the folder has one reduction: the order in which its records are
  read never shows. */
  lemma FolderReductionUnique(uploads: seq<Record>, a: LatestStats, b: LatestStats,
                              m: map<Key, Merged>, n: map<Key, Merged>)
    requires IsLatest(FolderAfter(uploads).Values, a) && IsLatest(FolderAfter(uploads).Values, b)
    requires IsMerged(FolderAfter(uploads).Values, m) && IsMerged(FolderAfter(uploads).Values, n)
    ensures a == b && m == n
  {
    FolderIsOwn(uploads);
    OwnIsConsistent(FolderAfter(uploads));
    hide FolderAfter, IsLatest, IsMerged, Consistent;
    ReductionUnique(FolderAfter(uploads).Values, a, b, m, n);
  }

  lemma OwnIsConsistent(folder: Folder)
    requires Own(folder)
    ensures Consistent(folder.Values)
  {
    forall r, s | r in folder.Values && s in folder.Values && OrderOf(r) == OrderOf(s)
      ensures r == s
    {
      var c :| c in folder && folder[c] == r;
      var d :| d in folder && folder[d] == s;
      assert c == r.client == s.client == d;
    }
  }

  /** Two observations that tie: same time, same digest. */
  predicate Tied(a: Record, b: Record) {
    a.observedAt == b.observedAt && a.commit == b.commit
  }

  /** The order in which two observations of a device arrive shows exactly when they tie and
  disagree on a stat. */
  lemma FoldCommutesIff(a: Record, b: Record)
    requires a.client == b.client
    ensures Fold(a, b) == Fold(b, a) <==>
              !Tied(a, b) || forall k | k in a.stats && k in b.stats :: a.stats[k] == b.stats[k]
  {
    FoldedUnlocksCommute(a, b);
    hide FoldedAchievements;
    var ab, ba := FoldedStats(a, b), FoldedStats(b, a);
    assert ab.Keys == ba.Keys;
    if !Tied(a, b) {
      assert ab == ba;
    } else {
      forall k | k in a.stats && k in b.stats ensures ab[k] == a.stats[k] && ba[k] == b.stats[k] {}
      assert ab == ba <==> forall k | k in a.stats && k in b.stats :: a.stats[k] == b.stats[k];
    }
  }

  lemma FoldedUnlocksCommute(a: Record, b: Record)
    ensures FoldedAchievements(a, b) == FoldedAchievements(b, a)
  {
    assert FoldedAchievements(a, b).Keys == FoldedAchievements(b, a).Keys;
  }

  // ----- Unlocks only grow ---------------------------------------------------------------

  /** What a later rolling record of a device still says. */
  ghost predicate Remembers(before: Record, after: Record) {
    && before.observedAt <= after.observedAt
    && (forall k | k in before.achievements ::
          && k in after.achievements
          && (before.achievements[k].unlocked ==> after.achievements[k].unlocked)
          && (before.achievements[k].unlockedAt.Some? ==>
                && after.achievements[k].unlockedAt.Some?
                && after.achievements[k].unlockedAt.value
                   <= before.achievements[k].unlockedAt.value))
  }

  ghost predicate Grown(before: Folder, after: Folder) {
    forall c | c in before :: c in after && Remembers(before[c], after[c])
  }

  predicate AllValid(folder: Folder) { forall c | c in folder :: Valid(folder[c]) }

  lemma UploadGrows(folder: Folder, r: Record)
    requires AllValid(folder) && Valid(r)
    ensures AllValid(Upload(folder, r)) && Grown(folder, Upload(folder, r))
  {
    hide Fold, Valid, Remembers;
    forall c | c in folder ensures Remembers(folder[c], folder[c]) { RemembersItself(folder[c]); }
    if r.client in folder {
      FoldValid(folder[r.client], r);
      FoldRemembers(folder[r.client], r);
    }
  }

  lemma RemembersItself(r: Record)
    ensures Remembers(r, r)
  {
  }

  lemma FoldRemembers(existing: Record, incoming: Record)
    requires Valid(existing) && Valid(incoming)
    ensures Remembers(existing, Fold(existing, incoming))
  {
  }

  lemma {:induction false} FolderGrows(uploads: seq<Record>, more: seq<Record>)
    requires forall r | r in uploads + more :: Valid(r)
    ensures AllValid(FolderAfter(uploads + more))
    ensures Grown(FolderAfter(uploads), FolderAfter(uploads + more))
    decreases |more|, |uploads|
  {
    hide Upload, Valid, Remembers;
    if more != [] {
      var front, last := more[..|more| - 1], more[|more| - 1];
      var all := uploads + more;
      assert all[..|all| - 1] == uploads + front && all[|all| - 1] == last;
      assert forall r | r in uploads + front :: r in all;
      assert last in all;
      FolderGrows(uploads, front);
      UploadGrows(FolderAfter(uploads + front), last);
      GrownTransitive(FolderAfter(uploads), FolderAfter(uploads + front), FolderAfter(all));
    } else {
      assert uploads + more == uploads;
      forall c | c in FolderAfter(uploads)
        ensures Remembers(FolderAfter(uploads)[c], FolderAfter(uploads)[c])
      {
        RemembersItself(FolderAfter(uploads)[c]);
      }
      if uploads != [] {
        assert uploads[..|uploads| - 1] + [] == uploads[..|uploads| - 1];
        assert forall r | r in uploads[..|uploads| - 1] :: r in uploads;
        assert uploads[|uploads| - 1] in uploads;
        FolderGrows(uploads[..|uploads| - 1], []);
        UploadGrows(FolderAfter(uploads[..|uploads| - 1]), uploads[|uploads| - 1]);
      }
    }
  }

  lemma GrownTransitive(a: Folder, b: Folder, c: Folder)
    requires Grown(a, b) && Grown(b, c)
    ensures Grown(a, c)
  {
    hide Remembers;
    forall d | d in a ensures d in c && Remembers(a[d], c[d]) {
      RemembersTransitive(a[d], b[d], c[d]);
    }
  }

  lemma RemembersTransitive(a: Record, b: Record, c: Record)
    requires Remembers(a, b) && Remembers(b, c)
    ensures Remembers(a, c)
  {
  }

  /** Whatever is uploaded next, in whatever order, a reader of the folder still sees every
  achievement, every unlocked one unlocked, no unlock time moved later, and no time of last
  observation moved back. */
  lemma UnlocksNeverRegress(uploads: seq<Record>, more: seq<Record>,
                            m: map<Key, Merged>, n: map<Key, Merged>, k: Key)
    requires forall r | r in uploads + more :: Valid(r)
    requires IsMerged(FolderAfter(uploads).Values, m)
    requires IsMerged(FolderAfter(uploads + more).Values, n) && k in m
    ensures k in n
    ensures m[k].unlocked ==> n[k].unlocked
    ensures m[k].unlockedAt.Some? ==>
              n[k].unlockedAt.Some? && n[k].unlockedAt.value <= m[k].unlockedAt.value
    ensures m[k].observedAt <= n[k].observedAt
  {
    hide FolderAfter, Valid, Grown, IsUnlock, IsLastSeen, Remembers;
    FolderGrows(uploads, more);
    var before, after := FolderAfter(uploads), FolderAfter(uploads + more);
    var r :| r in before.Values && k in r.achievements;
    var _ := StillThere(before, after, r, k);
    SeenNeverBack(before, after, k, m[k].observedAt, n[k].observedAt);
    UnlockNeverBack(before, after, k, Achievement(m[k].unlocked, m[k].unlockedAt),
                    Achievement(n[k].unlocked, n[k].unlockedAt));
  }

  lemma SeenNeverBack(before: Folder, after: Folder, k: Key, a: int, b: int)
    requires Grown(before, after) && IsLastSeen(before.Values, k, a) && IsLastSeen(after.Values, k, b)
    ensures a <= b
  {
    hide Grown;
    var r :| r in before.Values && k in r.achievements && r.observedAt == a;
    var _ := StillThere(before, after, r, k);
  }

  lemma UnlockNeverBack(before: Folder, after: Folder, k: Key, a: Achievement, b: Achievement)
    requires Grown(before, after)
    requires IsUnlock(before.Values, k, a.unlocked, a.unlockedAt)
    requires IsUnlock(after.Values, k, b.unlocked, b.unlockedAt)
    ensures a.unlocked ==> b.unlocked
    ensures a.unlockedAt.Some? ==> b.unlockedAt.Some? && b.unlockedAt.value <= a.unlockedAt.value
  {
    hide Grown;
    if a.unlocked {
      var r :| r in before.Values && k in r.achievements && r.achievements[k].unlocked;
      var _ := StillThere(before, after, r, k);
    }
    if a.unlockedAt.Some? {
      var r :| r in before.Values && k in r.achievements
               && r.achievements[k].unlockedAt == a.unlockedAt;
      var _ := StillThere(before, after, r, k);
    }
  }

  lemma StillThere(before: Folder, after: Folder, r: Record, k: Key) returns (s: Record)
    requires Grown(before, after) && r in before.Values && k in r.achievements
    ensures s in after.Values && k in s.achievements && Remembers(r, s)
  {
    var c :| c in before && before[c] == r;
    s := after[c];
  }

  // ----- Compaction ----------------------------------------------------------------------

  /** Of the devices that ever listed `k`, this is the newest observation of the one whose newest
  observation is newest of all. */
  ghost predicate IsTop(records: set<Record>, k: Key, top: Record) {
    && Newest(records, top) && ListsStat(records, top.client, k)
    && forall r | Newest(records, r) && ListsStat(records, r.client, k) ::
         AtMost(OrderOf(r), OrderOf(top))
  }

  /** That observation still lists `k`. */
  ghost predicate Covered(records: set<Record>, k: Key) {
    forall top | IsTop(records, k, top) :: k in top.stats
  }

  /** The newest observation of a device, which its rolling record stands for. */
  lemma NewestOf(records: set<Record>, folder: Folder, c: nat) returns (newest: Record)
    requires FolderSummarises(records, folder) && c in folder
    ensures newest.client == c && folder[c].client == c && StandsFor(records, newest, folder[c])
    ensures forall k :: k in folder[c].stats <==> ListsStat(records, c, k)
    ensures forall k :: k in folder[c].achievements <==> ListsAchievement(records, c, k)
  {
    hide IsUnlock, StandsFor, ListsStat, ListsAchievement, Valid;
    assert Summarises(records, c, folder[c]);
    newest :| newest in records && newest.client == c && StandsFor(records, newest, folder[c]);
  }

  lemma DeviceListed(records: set<Record>, folder: Folder, r: Record)
    requires FolderSummarises(records, folder) && r in records
    ensures r.client in folder && folder[r.client] in folder.Values
  {
    hide Summarises;
  }

  /** The winner for `k` among rolling records stands where the newest observation of the
  winning device stands. */
  lemma RollingWinner(records: set<Record>, folder: Folder, k: Key, stat: Stat, order: Order)
    returns (rolling: Record, top: Record)
    requires FolderSummarises(records, folder) && Wins(folder.Values, k, stat, order)
    ensures rolling in folder.Values && k in rolling.stats && rolling.stats[k] == stat
    ensures top.client in folder && folder[top.client] == rolling
    ensures StandsFor(records, top, rolling) && OrderOf(top) == order
    ensures ListsStat(records, top.client, k)
    ensures forall r | Newest(records, r) && ListsStat(records, r.client, k) ::
              AtMost(OrderOf(r), order)
  {
    hide FolderSummarises, ListsStat;
    rolling :| rolling in folder.Values && k in rolling.stats && OrderOf(rolling) == order
               && rolling.stats[k] == stat;
    var c :| c in folder && folder[c] == rolling;
    top := NewestOf(records, folder, c);
    forall r | Newest(records, r) && ListsStat(records, r.client, k)
      ensures AtMost(OrderOf(r), order)
    {
      DeviceListed(records, folder, r);
      var newest := NewestOf(records, folder, r.client);
      assert AtMost(OrderOf(r), OrderOf(newest)) && AtMost(OrderOf(folder[r.client]), order);
    }
  }

  /** No observation that lists `k` is newer than the newest of the winning device. */
  lemma ListersAtMost(records: set<Record>, folder: Folder, k: Key, order: Order, r: Record)
    requires FolderSummarises(records, folder) && r in records && k in r.stats
    requires forall s | Newest(records, s) && ListsStat(records, s.client, k) ::
               AtMost(OrderOf(s), order)
    ensures AtMost(OrderOf(r), order)
  {
    hide FolderSummarises;
    DeviceListed(records, folder, r);
    var newest := NewestOf(records, folder, r.client);
    assert ListsStat(records, newest.client, k);
    assert AtMost(OrderOf(r), OrderOf(newest));
  }

  lemma CompactionAt(records: set<Record>, folder: Folder, k: Key, a: Stat, x: Order, b: Stat,
                     y: Order)
    requires Consistent(records) && FolderSummarises(records, folder)
    requires Wins(folder.Values, k, a, x) && Wins(records, k, b, y)
    ensures (a == b && x == y) <==> Covered(records, k)
  {
    hide FolderSummarises, IsUnlock;
    var rolling, top := RollingWinner(records, folder, k, a, x);
    var raw :| raw in records && k in raw.stats && OrderOf(raw) == y && raw.stats[k] == b;
    ListersAtMost(records, folder, k, x, raw);
    assert IsTop(records, k, top);
    TopUnique(records, k, top);
    if k in top.stats {
      assert AtMost(x, y);
      assert raw == top;
    } else {
      assert OrderOf(raw) == OrderOf(top) ==> raw == top;
    }
  }

  lemma TopUnique(records: set<Record>, k: Key, top: Record)
    requires Consistent(records) && IsTop(records, k, top)
    ensures forall other | IsTop(records, k, other) :: other == top
    ensures Covered(records, k) <==> k in top.stats
  {
    forall other | IsTop(records, k, other) ensures other == top {
      assert AtMost(OrderOf(top), OrderOf(other)) && AtMost(OrderOf(other), OrderOf(top));
    }
  }

  /** Compaction of stats.  Reducing one rolling record per device gives what reducing every
  observation ever uploaded gives, values and positions, exactly when every key is covered;
  the arrival order does not matter. */
  lemma StatsCompactionIff(uploads: seq<Record>, rolling: LatestStats, raw: LatestStats)
    requires Consistent(SetOf(uploads)) && forall r | r in uploads :: Valid(r)
    requires IsLatest(FolderAfter(uploads).Values, rolling) && IsLatest(SetOf(uploads), raw)
    ensures rolling == raw <==> forall k | k in raw :: Covered(SetOf(uploads), k)
  {
    hide Wins, Covered, Consistent, FolderAfter, FolderSummarises;
    var records, folder := SetOf(uploads), FolderAfter(uploads);
    FolderAfterSummarises(uploads);
    forall k ensures k in rolling <==> k in raw {
      SameKeys(records, folder, k);
    }
    forall k | k in raw ensures rolling[k] == raw[k] <==> Covered(records, k) {
      CompactionAt(records, folder, k, rolling[k].0, rolling[k].1, raw[k].0, raw[k].1);
    }
    assert rolling.Keys == raw.Keys;
  }

  // What a reader is shown is the value and the time, not the rest of the position.

  predicate NewerThanAll(uploads: seq<Record>, r: Record) {
    forall s | s in uploads && s.client == r.client :: Before(s, r)
  }

  /** Which upload's value of `k` a device's rolling record carries: the last one that listed `k`
  and on arrival was newer than all before it of the device, or else the first that listed `k`. */
  function KeptAt(uploads: seq<Record>, c: nat, k: Key): (r: Option<nat>)
    ensures r.Some? ==>
              r.value < |uploads| && uploads[r.value].client == c && k in uploads[r.value].stats
  {
    if uploads == [] then None
    else
      var n := |uploads| - 1;
      var front, last := uploads[..n], uploads[n];
      var kept := KeptAt(front, c, k);
      if last.client == c && k in last.stats && (kept.None? || NewerThanAll(front, last))
      then Some(n) else kept
  }

  /** A rolling record stands at the largest time and digest uploaded. */
  ghost predicate StandsLast(uploads: seq<Record>, c: nat, rolling: Record) {
    && (exists s | s in uploads && s.client == c :: Tied(rolling, s))
    && (forall s | s in uploads && s.client == c :: !Before(rolling, s))
  }

  lemma StandsLastStep(front: seq<Record>, last: Record, existing: Record)
    requires StandsLast(front, last.client, existing)
    ensures StandsLast(front + [last], last.client, Fold(existing, last))
    ensures Before(existing, last) <==> NewerThanAll(front, last)
  {
    var s :| s in front && s.client == last.client && Tied(existing, s);
    assert s in front + [last] && last in front + [last];
  }

  lemma {:induction false} RollingStandsLast(uploads: seq<Record>, c: nat)
    ensures c in FolderAfter(uploads) <==> exists s | s in uploads :: s.client == c
    ensures c in FolderAfter(uploads) ==> StandsLast(uploads, c, FolderAfter(uploads)[c])
  {
    if uploads != [] {
      var front, last := uploads[..|uploads| - 1], uploads[|uploads| - 1];
      assert uploads == front + [last];
      RollingStandsLast(front, c);
      if last.client != c {
        assert forall s | s in uploads && s.client == c :: s in front;
      } else if c in FolderAfter(front) {
        StandsLastStep(front, last, FolderAfter(front)[c]);
      } else {
        assert last in uploads && forall s | s in uploads && s.client == c :: s == last;
      }
    }
  }

  lemma {:induction false} KeptValue(uploads: seq<Record>, c: nat, k: Key)
    ensures KeptAt(uploads, c, k).Some? <==>
              c in FolderAfter(uploads) && k in FolderAfter(uploads)[c].stats
    ensures var kept := KeptAt(uploads, c, k);
            kept.Some? ==> FolderAfter(uploads)[c].stats[k] == uploads[kept.value].stats[k]
  {
    if uploads != [] {
      var n := |uploads| - 1;
      var front, last := uploads[..n], uploads[n];
      KeptValue(front, c, k);
      if last.client == c && c in FolderAfter(front) {
        RollingStandsLast(front, c);
        StandsLastStep(front, last, FolderAfter(front)[c]);
        hide StandsLast, NewerThanAll, Before, FoldedAchievements;
        assert FolderAfter(uploads)[c].stats == FoldedStats(FolderAfter(front)[c], last);
      }
    }
  }

  /** The newest observation that lists `k`. */
  ghost predicate NewestLister(records: set<Record>, k: Key, r: Record) {
    r in records && k in r.stats
    && forall s | s in records && k in s.stats :: AtMost(OrderOf(s), OrderOf(r))
  }

  /** The newest observation listing `k` was made at the time of the winning device's newest
  observation, and that device's record carries the same value. */
  ghost predicate ShownRight(uploads: seq<Record>, k: Key) {
    forall top, r | IsTop(SetOf(uploads), k, top) && NewestLister(SetOf(uploads), k, r) ::
      && r.observedAt == top.observedAt
      && var kept := KeptAt(uploads, top.client, k);
      kept.Some? && uploads[kept.value].stats[k] == r.stats[k]
  }

  lemma ShownAt(uploads: seq<Record>, k: Key, a: Stat, x: Order, b: Stat, y: Order)
    requires Consistent(SetOf(uploads)) && FolderSummarises(SetOf(uploads), FolderAfter(uploads))
    requires Wins(FolderAfter(uploads).Values, k, a, x) && Wins(SetOf(uploads), k, b, y)
    ensures (a == b && x.observedAt == y.observedAt) <==> ShownRight(uploads, k)
  {
    hide FolderSummarises, FolderAfter, KeptAt;
    var records, folder := SetOf(uploads), FolderAfter(uploads);
    var rolling, top := RollingWinner(records, folder, k, a, x);
    assert IsTop(records, k, top);
    TopUnique(records, k, top);
    KeptValue(uploads, top.client, k);
    var raw :| raw in records && k in raw.stats && OrderOf(raw) == y && raw.stats[k] == b;
    assert NewestLister(records, k, raw);
    hide IsTop, Wins;
    forall r | NewestLister(records, k, r) ensures r == raw {
      assert AtMost(OrderOf(r), OrderOf(raw)) && AtMost(OrderOf(raw), OrderOf(r));
    }
  }

  /** What a reader is shown of the rolling records is what it would be shown of every
  observation, exactly when every key is shown right. */
  lemma StatsShownIff(uploads: seq<Record>, rolling: LatestStats, raw: LatestStats)
    requires Consistent(SetOf(uploads)) && forall r | r in uploads :: Valid(r)
    requires IsLatest(FolderAfter(uploads).Values, rolling) && IsLatest(SetOf(uploads), raw)
    ensures rolling.Keys == raw.Keys
    ensures (forall k | k in raw ::
               rolling[k].0 == raw[k].0 && rolling[k].1.observedAt == raw[k].1.observedAt)
       <==> forall k | k in raw :: ShownRight(uploads, k)
  {
    hide Wins, ShownRight, Consistent, FolderAfter, FolderSummarises;
    FolderAfterSummarises(uploads);
    forall k ensures k in rolling <==> k in raw {
      SameKeys(SetOf(uploads), FolderAfter(uploads), k);
    }
    forall k | k in raw
      ensures (rolling[k].0 == raw[k].0 && rolling[k].1.observedAt == raw[k].1.observedAt)
         <==> ShownRight(uploads, k)
    {
      ShownAt(uploads, k, rolling[k].0, rolling[k].1, raw[k].0, raw[k].1);
    }
  }

  lemma SameKeys(records: set<Record>, folder: Folder, k: Key)
    requires FolderSummarises(records, folder)
    ensures (exists r | r in folder.Values :: k in r.stats) <==> (exists r | r in records :: k in r.stats)
  {
    hide KnowsUnlocks, StandsFor;
    forall r | r in records
      ensures r.client in folder && folder[r.client] in folder.Values
      ensures k in r.stats ==> k in folder[r.client].stats
    {
      assert r.client in folder;
      assert k in r.stats ==> ListsStat(records, r.client, k);
    }
    forall r | r in folder.Values
      ensures k in r.stats ==> exists s | s in records :: k in s.stats
    {
      var c :| c in folder && folder[c] == r;
      assert k in r.stats ==> ListsStat(records, c, k);
    }
  }

  lemma SameAchievements(records: set<Record>, folder: Folder, k: Key)
    requires FolderKnows(records, folder)
    ensures (exists r | r in folder.Values :: k in r.achievements)
       <==> (exists r | r in records :: k in r.achievements)
  {
    hide IsUnlock;
    forall r | r in records
      ensures r.client in folder && folder[r.client] in folder.Values
      ensures k in r.achievements ==> k in folder[r.client].achievements
    {
      assert r.client in folder;
      assert k in r.achievements ==> ListsAchievement(records, r.client, k);
    }
    forall r | r in folder.Values
      ensures k in r.achievements ==> exists s | s in records :: k in s.achievements
    {
      var c :| c in folder && folder[c] == r;
      assert k in r.achievements ==> ListsAchievement(records, c, k);
    }
  }

  /** Complete snapshots are covered: a device whose newest observation lists everything it
  ever listed loses nothing to compaction. */
  lemma CompleteSnapshotsCover(records: set<Record>, k: Key)
    requires forall r, s | Newest(records, r) && s in records && s.client == r.client ::
               s.stats.Keys <= r.stats.Keys
    ensures Covered(records, k)
  {
    forall top | Newest(records, top) && ListsStat(records, top.client, k) ensures k in top.stats {
      var s :| s in records && s.client == top.client && k in s.stats;
    }
  }

  /** Partial snapshots lose: after {p}@1, {q}@5, {p}@3 the rolling record still holds the value
  of `p` seen at 1, where the arrival order {p}@1, {p}@3, {q}@5 keeps the one seen at 3, and
  both claim the position of the observation at 5. */
  lemma PartialSnapshotsDiffer(p: Key, q: Key, first: Stat, second: Stat)
    requires p != q && first != second
    ensures var a := Record(7, 1, 1, map[], map[p := first]);
            var b := Record(7, 2, 5, map[], map[q := first]);
            var c := Record(7, 3, 3, map[], map[p := second]);
            && FolderAfter([a, b, c]) == map[7 := Record(7, 2, 5, map[], map[p := first, q := first])]
            && FolderAfter([a, c, b]) == map[7 := Record(7, 2, 5, map[], map[p := second, q := first])]
  {
    hide FolderAfter, FoldedStats;
    var a := Record(7, 1, 1, map[], map[p := first]);
    var b := Record(7, 2, 5, map[], map[q := first]);
    var c := Record(7, 3, 3, map[], map[p := second]);
    ThreeUploads(a, b, c);
    ThreeUploads(a, c, b);
    var ab := Record(7, 2, 5, map[], map[p := first, q := first]);
    var ac := Record(7, 3, 3, map[], map[p := second]);
    StatsAfterFold(a, b, ab.stats);
    StatsAfterFold(ab, c, ab.stats);
    StatsAfterFold(a, c, ac.stats);
    StatsAfterFold(ac, b, map[p := second, q := first]);
  }

  lemma StatsAfterFold(existing: Record, incoming: Record, stats: map<Key, Stat>)
    requires stats == if Before(existing, incoming) then existing.stats + incoming.stats
                      else incoming.stats + existing.stats
    ensures FoldedStats(existing, incoming) == stats
  {
  }

  lemma ThreeUploads(a: Record, b: Record, c: Record)
    requires a.client == b.client == c.client
    ensures FolderAfter([a, b, c]) == map[a.client := Fold(Fold(a, b), c)]
  {
    hide Fold;
    assert [a, b, c][..2] == [a, b] && [a, b][..1] == [a] && [a][..0] == [];
    assert FolderAfter([a]) == map[a.client := a];
    assert FolderAfter([a, b]) == map[a.client := Fold(a, b)];
  }

  lemma RollingUnlock(records: set<Record>, folder: Folder, r: Record, k: Key, unlocked: bool,
                      at: Option<int>)
    requires FolderKnows(records, folder) && IsUnlock(records, k, unlocked, at)
    requires r in folder.Values && k in r.achievements
    ensures r.achievements[k].unlocked ==> unlocked
    ensures r.achievements[k].unlockedAt.Some? ==>
              at.Some? && at.value <= r.achievements[k].unlockedAt.value
  {
    var c :| c in folder && folder[c] == r;
    assert KnowsUnlocks(records, c, r);
    assert IsUnlock(From(records, c), k, r.achievements[k].unlocked, r.achievements[k].unlockedAt);
    assert From(records, c) <= records;
  }

  lemma UnlockCompactionAt(records: set<Record>, folder: Folder, k: Key, unlocked: bool,
                           at: Option<int>)
    requires FolderKnows(records, folder) && IsUnlock(records, k, unlocked, at)
    ensures IsUnlock(folder.Values, k, unlocked, at)
  {
    hide FolderKnows;
    forall r | r in folder.Values && k in r.achievements
      ensures r.achievements[k].unlocked ==> unlocked
      ensures r.achievements[k].unlockedAt.Some? ==>
                at.Some? && at.value <= r.achievements[k].unlockedAt.value
    {
      RollingUnlock(records, folder, r, k, unlocked, at);
    }
    if unlocked {
      var s :| s in records && k in s.achievements && s.achievements[k].unlocked;
      var r := RollingOf(records, folder, s, k);
      assert r.achievements[k].unlocked;
    }
    if at.Some? {
      var s :| s in records && k in s.achievements && s.achievements[k].unlockedAt == at;
      var r := RollingOf(records, folder, s, k);
      assert r.achievements[k].unlockedAt == at;
    }
  }

  /** The rolling record of an observation's device knows at least as much of its unlocks. */
  lemma RollingOf(records: set<Record>, folder: Folder, s: Record, k: Key)
    returns (r: Record)
    requires FolderKnows(records, folder) && s in records && k in s.achievements
    ensures r in folder.Values && k in r.achievements
    ensures s.achievements[k].unlocked ==> r.achievements[k].unlocked
    ensures s.achievements[k].unlockedAt.Some? ==>
              r.achievements[k].unlockedAt.Some?
              && r.achievements[k].unlockedAt.value <= s.achievements[k].unlockedAt.value
  {
    assert s.client in folder;
    r := folder[s.client];
    assert KnowsUnlocks(records, s.client, r) && ListsAchievement(records, s.client, k);
    assert s in From(records, s.client);
  }

  /** Compaction of achievements: which are unlocked, and when, never depends on it. */
  lemma UnlocksCompaction(uploads: seq<Record>, rolling: map<Key, Merged>, raw: map<Key, Merged>)
    requires forall r | r in uploads :: Valid(r)
    requires IsMerged(FolderAfter(uploads).Values, rolling) && IsMerged(SetOf(uploads), raw)
    ensures rolling.Keys == raw.Keys
    ensures forall k | k in raw :: rolling[k].unlocked == raw[k].unlocked
                                   && rolling[k].unlockedAt == raw[k].unlockedAt
  {
    hide IsUnlock, FolderAfter, IsLastSeen, FolderKnows;
    var records, folder := SetOf(uploads), FolderAfter(uploads);
    FolderAfterKnows(uploads);
    forall k ensures k in rolling <==> k in raw {
      SameAchievements(records, folder, k);
    }
    forall k | k in raw
      ensures rolling[k].unlocked == raw[k].unlocked && rolling[k].unlockedAt == raw[k].unlockedAt
    {
      UnlockCompactionAt(records, folder, k, raw[k].unlocked, raw[k].unlockedAt);
      UnlockUnique(folder.Values, k, rolling[k].unlocked, rolling[k].unlockedAt,
                   raw[k].unlocked, raw[k].unlockedAt);
    }
  }

  lemma LastSeenCompaction(records: set<Record>, folder: Folder, k: Key, at: int)
    requires FolderSummarises(records, folder) && IsLastSeen(records, k, at)
    requires forall r | Newest(records, r) && ListsAchievement(records, r.client, k) ::
               k in r.achievements
    ensures IsLastSeen(folder.Values, k, at)
  {
    hide FolderSummarises;
    var r :| r in records && k in r.achievements && r.observedAt == at;
    DeviceListed(records, folder, r);
    assert ListsAchievement(records, r.client, k);
    var newest := NewestOf(records, folder, r.client);
    assert AtMost(OrderOf(r), OrderOf(newest));
    NewestIsThere(records, newest);
    forall rolling | rolling in folder.Values && k in rolling.achievements
      ensures rolling.observedAt <= at
    {
      var c :| c in folder && folder[c] == rolling;
      var other := NewestOf(records, folder, c);
      NewestIsThere(records, other);
      hide Newest, ListsAchievement;
      assert k in other.achievements;
    }
  }

  lemma NewestIsThere(records: set<Record>, r: Record)
    requires Newest(records, r)
    ensures r in records
  {
  }

  /** With complete snapshots compaction loses nothing of the achievements at all. */
  lemma AchievementsCompaction(
    uploads: seq<Record>, rolling: map<Key, Merged>, raw: map<Key, Merged>)
    requires Consistent(SetOf(uploads)) && forall r | r in uploads :: Valid(r)
    requires IsMerged(FolderAfter(uploads).Values, rolling) && IsMerged(SetOf(uploads), raw)
    requires forall r, s | Newest(SetOf(uploads), r) && s in uploads && s.client == r.client ::
               s.achievements.Keys <= r.achievements.Keys
    ensures rolling == raw
  {
    hide IsUnlock, Consistent, FolderAfter, IsLastSeen, Newest, FolderSummarises, Valid;
    var records, folder := SetOf(uploads), FolderAfter(uploads);
    FolderAfterSummarises(uploads);
    UnlocksCompaction(uploads, rolling, raw);
    forall k | k in raw ensures rolling[k].observedAt == raw[k].observedAt {
      forall r | Newest(records, r) && ListsAchievement(records, r.client, k)
        ensures k in r.achievements
      {
        var s :| s in records && s.client == r.client && k in s.achievements;
        assert s in uploads;
      }
      LastSeenCompaction(records, folder, k, raw[k].observedAt);
      LastSeenUnique(folder.Values, k, rolling[k].observedAt, raw[k].observedAt);
    }
  }

  lemma LastSeenUnique(records: set<Record>, k: Key, a: int, b: int)
    requires IsLastSeen(records, k, a) && IsLastSeen(records, k, b)
    ensures a == b
  {
  }

  lemma UnlockUnique(records: set<Record>, k: Key, u: bool, x: Option<int>, v: bool, y: Option<int>)
    requires IsUnlock(records, k, u, x) && IsUnlock(records, k, v, y)
    ensures u == v && x == y
  {
  }

  // ----- The loops -----------------------------------------------------------------------

  /** Merge one record's achievements into the states collected so far. */
  method MergeAchievements(states: map<Key, Merged>, record: Record, ghost seen: set<Record>)
    returns (after: map<Key, Merged>)
    requires IsMerged(seen, states) && Valid(record)
    requires forall r | r in seen :: Valid(r)
    ensures IsMerged(seen + {record}, after)
  {
    hide IsMerged;
    after := states;
    var left := record.achievements.Keys;
    while left != {}
      invariant left <= record.achievements.Keys
      invariant after.Keys == states.Keys + (record.achievements.Keys - left)
      invariant forall k | k in states && (k in left || k !in record.achievements) ::
                  after[k] == states[k]
      invariant forall k | k in record.achievements && k !in left ::
                  after[k] == MergedWith(states, record, k)
    {
      var k :| k in left;
      var a := record.achievements[k];
      assert k in after <==> k in states;
      if k in after {
        var unlocked := after[k].unlocked || a.unlocked;
        after := after[k := Merged(
          unlocked, if unlocked then Earliest(after[k].unlockedAt, a.unlockedAt) else None,
          if after[k].observedAt > record.observedAt then after[k].observedAt
          else record.observedAt)];
      } else {
        after := after[k := Merged(a.unlocked, a.unlockedAt, record.observedAt)];
      }
      assert after[k] == MergedWith(states, record, k);
      left := left - {k};
    }
    MergeStep(seen, states, record, after);
  }

  function MergedWith(states: map<Key, Merged>, record: Record, k: Key): Merged
    requires k in record.achievements
  {
    var a := record.achievements[k];
    if k !in states then Merged(a.unlocked, a.unlockedAt, record.observedAt)
    else
      var m := MergeUnlock(Achievement(states[k].unlocked, states[k].unlockedAt), a);
      Merged(m.unlocked, m.unlockedAt,
             if states[k].observedAt > record.observedAt then states[k].observedAt
             else record.observedAt)
  }

  lemma MergeStep(seen: set<Record>, states: map<Key, Merged>, record: Record,
                  after: map<Key, Merged>)
    requires IsMerged(seen, states) && Valid(record) && forall r | r in seen :: Valid(r)
    requires after.Keys == states.Keys + record.achievements.Keys
    requires forall k | k in states && k !in record.achievements :: after[k] == states[k]
    requires forall k | k in record.achievements :: after[k] == MergedWith(states, record, k)
    ensures IsMerged(seen + {record}, after)
  {
    hide IsUnlock, IsLastSeen, MergeUnlock, Valid;
    var all := seen + {record};
    assert record in all;
    forall k ensures k in after <==> exists r | r in all :: k in r.achievements {
      assert k in states <==> exists r | r in seen :: k in r.achievements;
    }
    forall k | k in after
      ensures IsUnlock(all, k, after[k].unlocked, after[k].unlockedAt)
      ensures IsLastSeen(all, k, after[k].observedAt)
    {
      if k !in states {
        assert forall r | r in seen :: k !in r.achievements;
        AloneAt(seen, record, k);
      } else if k in record.achievements {
        KnownUnlockedAt(seen, k, states[k]);
        UnlockOfUnion(seen, record, k, Achievement(states[k].unlocked, states[k].unlockedAt));
        SeenOfUnion(seen, record, k, states[k].observedAt);
      } else {
        UntouchedAt(seen, record, k, states[k]);
      }
    }
  }

  lemma AloneAt(seen: set<Record>, record: Record, k: Key)
    requires k in record.achievements && forall r | r in seen :: k !in r.achievements
    ensures var a := record.achievements[k];
            IsUnlock(seen + {record}, k, a.unlocked, a.unlockedAt)
            && IsLastSeen(seen + {record}, k, record.observedAt)
  {
    assert record in seen + {record};
  }

  lemma KnownUnlockedAt(seen: set<Record>, k: Key, m: Merged)
    requires IsUnlock(seen, k, m.unlocked, m.unlockedAt) && forall r | r in seen :: Valid(r)
    ensures m.unlockedAt.Some? ==> m.unlocked
  {
  }

  lemma SeenOfUnion(seen: set<Record>, record: Record, k: Key, at: int)
    requires IsLastSeen(seen, k, at) && k in record.achievements
    ensures IsLastSeen(seen + {record}, k, if at > record.observedAt then at else record.observedAt)
  {
    assert record in seen + {record};
    var r :| r in seen && k in r.achievements && r.observedAt == at;
    assert r in seen + {record};
  }

  lemma UntouchedAt(seen: set<Record>, record: Record, k: Key, m: Merged)
    requires IsUnlock(seen, k, m.unlocked, m.unlockedAt) && IsLastSeen(seen, k, m.observedAt)
    requires k !in record.achievements
    ensures IsUnlock(seen + {record}, k, m.unlocked, m.unlockedAt)
    ensures IsLastSeen(seen + {record}, k, m.observedAt)
  {
    assert forall r | r in seen + {record} && k in r.achievements :: r in seen;
  }

  /** Offer every stat of one record; a later position replaces the one kept so far. */
  method InsertLatest(states: LatestStats, record: Record, ghost seen: set<Record>)
    returns (after: LatestStats)
    requires IsLatest(seen, states)
    ensures IsLatest(seen + {record}, after)
  {
    after := states;
    var order := OrderOf(record);
    var left := record.stats.Keys;
    while left != {}
      invariant left <= record.stats.Keys
      invariant after.Keys == states.Keys + (record.stats.Keys - left)
      invariant forall k | k in states && (k in left || k !in record.stats) :: after[k] == states[k]
      invariant forall k | k in record.stats && k !in left ::
                  after[k] == if k in states && !Less(states[k].1, order) then states[k]
                              else (record.stats[k], order)
    {
      var k :| k in left;
      if k !in after || Less(after[k].1, order) {
        after := after[k := (record.stats[k], order)];
      }
      left := left - {k};
    }
    InsertStep(seen, states, record, after);
  }

  lemma InsertStep(seen: set<Record>, states: LatestStats, record: Record, after: LatestStats)
    requires IsLatest(seen, states) && after.Keys == states.Keys + record.stats.Keys
    requires forall k | k in states && k !in record.stats :: after[k] == states[k]
    requires forall k | k in record.stats ::
               after[k] == if k in states && !Less(states[k].1, OrderOf(record)) then states[k]
                           else (record.stats[k], OrderOf(record))
    ensures IsLatest(seen + {record}, after)
  {
    hide Wins, OrderOf;
    var all := seen + {record};
    assert record in all;
    forall k ensures k in after <==> exists r | r in all :: k in r.stats {
      assert k in states <==> exists r | r in seen :: k in r.stats;
    }
    forall k | k in after ensures Wins(all, k, after[k].0, after[k].1) {
      if k in states {
        WinsOfUnion(seen, record, k, states[k].0, states[k].1);
      } else {
        assert forall r | r in seen :: k !in r.stats;
        WinsAlone(seen, record, k);
      }
    }
  }

  lemma WinsAlone(seen: set<Record>, record: Record, k: Key)
    requires k in record.stats && forall r | r in seen :: k !in r.stats
    ensures Wins(seen + {record}, k, record.stats[k], OrderOf(record))
  {
    assert record in seen + {record};
  }

  lemma WinsOfUnion(seen: set<Record>, record: Record, k: Key, stat: Stat, order: Order)
    requires Wins(seen, k, stat, order)
    ensures if k in record.stats && Less(order, OrderOf(record))
            then Wins(seen + {record}, k, record.stats[k], OrderOf(record))
            else Wins(seen + {record}, k, stat, order)
  {
    var all := seen + {record};
    assert record in all;
    var r :| r in seen && k in r.stats && OrderOf(r) == order && r.stats[k] == stat;
    assert r in all;
  }

  /** Reduce the records of all devices, read in any order. */
  method ReduceAppState(records: seq<Record>)
    returns (achievements: map<Key, Merged>, stats: LatestStats)
    requires forall r | r in records :: Valid(r)
    ensures IsMerged(SetOf(records), achievements) && IsLatest(SetOf(records), stats)
  {
    achievements, stats := map[], map[];
    for i := 0 to |records|
      invariant IsMerged(SetOf(records[..i]), achievements)
      invariant IsLatest(SetOf(records[..i]), stats)
    {
      ghost var seen := SetOf(records[..i]);
      assert SetOf(records[..i + 1]) == seen + {records[i]};
      achievements := MergeAchievements(achievements, records[i], seen);
      stats := InsertLatest(stats, records[i], seen);
    }
    assert records[..|records|] == records;
  }

  method FoldAchievements(existing: Record, incoming: Record)
    returns (achievements: map<Key, Achievement>)
    ensures achievements == FoldedAchievements(existing, incoming)
  {
    hide MergeUnlock;
    achievements := existing.achievements;
    var left := incoming.achievements.Keys;
    while left != {}
      invariant left <= incoming.achievements.Keys
      invariant achievements.Keys
                == existing.achievements.Keys + (incoming.achievements.Keys - left)
      invariant forall k | k in achievements ::
                  achievements[k] ==
                  if k in left || k !in incoming.achievements then existing.achievements[k]
                  else FoldedAchievements(existing, incoming)[k]
    {
      var k :| k in left;
      achievements := achievements[k :=
        if k in achievements then MergeUnlock(achievements[k], incoming.achievements[k])
        else incoming.achievements[k]];
      left := left - {k};
    }
  }

  method FoldStats(existing: Record, incoming: Record) returns (stats: map<Key, Stat>)
    ensures stats == FoldedStats(existing, incoming)
  {
    stats := existing.stats;
    var left := incoming.stats.Keys;
    while left != {}
      invariant left <= incoming.stats.Keys
      invariant stats.Keys == existing.stats.Keys + (incoming.stats.Keys - left)
      invariant forall k | k in stats ::
                  stats[k] == if k in left || k !in incoming.stats then existing.stats[k]
                              else FoldedStats(existing, incoming)[k]
    {
      var k :| k in left;
      if k !in stats || Before(existing, incoming) {
        stats := stats[k := incoming.stats[k]];
      }
      left := left - {k};
    }
  }

  /** Fold a new observation into the record on disk, existing entries first. */
  method FoldDeviceRecords(existing: Record, incoming: Record) returns (r: Record)
    ensures r == Fold(existing, incoming)
  {
    var achievements := FoldAchievements(existing, incoming);
    var stats := FoldStats(existing, incoming);
    var latest := if Before(incoming, existing) then existing else incoming;
    r := Record(incoming.client, latest.commit, latest.observedAt, achievements, stats);
  }
}
