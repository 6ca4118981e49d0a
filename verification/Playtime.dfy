/** Playtime shared through a folder: one rolling record per device and app, reduced in the
order of observation. */
module Playtime {
  import opened Wrappers
  import opened DeviceState

  datatype Entry = Entry(minutes: nat, recent: nat, lastPlayed: Option<int>, observedAt: int)

  datatype Observation = Observation(client: nat, entry: Entry)

  /** The content digest that breaks ties between equal observation times. */
  type Tie = Observation -> nat

  function Position(tie: Tie, o: Observation): Order {
    Order(o.entry.observedAt, o.client, tie(o))
  }

  function Later(a: Option<int>, b: Option<int>): Option<int> {
    if a.Some? && b.Some? then Some(if a.value > b.value then a.value else b.value)
    else if a.Some? then a else b
  }

  // ----- What a reduction means ----------------------------------------------------------

  ghost predicate IsMinutes(os: set<Observation>, minutes: nat) {
    && (exists o | o in os :: o.entry.minutes == minutes)
    && (forall o | o in os :: o.entry.minutes <= minutes)
  }

  ghost predicate IsLastPlayed(os: set<Observation>, at: Option<int>) {
    && (exists o | o in os :: o.entry.lastPlayed == at)
    && (forall o | o in os && o.entry.lastPlayed.Some? ::
          at.Some? && o.entry.lastPlayed.value <= at.value)
  }

  /** `o` is last in the order of observation. */
  ghost predicate IsLast(tie: Tie, os: set<Observation>, o: Observation) {
    o in os && forall p | p in os :: AtMost(Position(tie, p), Position(tie, o))
  }

  /** Cumulative values are maxima; the recent minutes and the time are those observed last. */
  ghost predicate IsTotal(tie: Tie, os: set<Observation>, total: Entry) {
    && IsMinutes(os, total.minutes) && IsLastPlayed(os, total.lastPlayed)
    && exists o | IsLast(tie, os, o) ::
         total.recent == o.entry.recent && total.observedAt == o.entry.observedAt
  }

  // ----- One rolling record per device ---------------------------------------------------

  /** The order of one device's own observations. */
  predicate Precedes(tie: Tie, a: Observation, b: Observation) {
    || a.entry.observedAt < b.entry.observedAt
    || (a.entry.observedAt == b.entry.observedAt && tie(a) < tie(b))
  }

  function Fold(tie: Tie, existing: Observation, incoming: Observation): Observation {
    var newer := if Precedes(tie, incoming, existing) then existing else incoming;
    newer.(entry := newer.entry.(
             minutes := if existing.entry.minutes > incoming.entry.minutes
                        then existing.entry.minutes else incoming.entry.minutes,
             lastPlayed := Later(existing.entry.lastPlayed, incoming.entry.lastPlayed)))
  }

  type Folder = map<nat, Observation>

  function Upload(tie: Tie, folder: Folder, o: Observation): Folder {
    folder[o.client := if o.client in folder then Fold(tie, folder[o.client], o) else o]
  }

  function FolderAfter(tie: Tie, uploads: seq<Observation>): Folder {
    if uploads == [] then map[]
    else Upload(tie, FolderAfter(tie, uploads[..|uploads| - 1]), uploads[|uploads| - 1])
  }

  function SetOf(os: seq<Observation>): set<Observation> {
    set o | o in os
  }

  function From(os: set<Observation>, client: nat): set<Observation> {
    set o | o in os && o.client == client
  }

  /** A rolling record has its device's maxima, the newest time, and the recent minutes of some
  observation at that time. */
  ghost predicate Summarises(os: set<Observation>, client: nat, rolling: Observation) {
    && rolling.client == client
    && IsMinutes(From(os, client), rolling.entry.minutes)
    && IsLastPlayed(From(os, client), rolling.entry.lastPlayed)
    && (exists o | o in From(os, client) ::
          o.entry.observedAt == rolling.entry.observedAt && o.entry.recent == rolling.entry.recent)
    && (forall o | o in From(os, client) :: o.entry.observedAt <= rolling.entry.observedAt)
  }

  lemma MaximaOfUnion(os: set<Observation>, o: Observation, minutes: nat, at: Option<int>)
    requires IsMinutes(os, minutes) && IsLastPlayed(os, at)
    ensures IsMinutes(os + {o}, if minutes > o.entry.minutes then minutes else o.entry.minutes)
    ensures IsLastPlayed(os + {o}, Later(at, o.entry.lastPlayed))
  {
    var all := os + {o};
    assert o in all;
    var p :| p in os && p.entry.minutes == minutes;
    assert p in all;
    var q :| q in os && q.entry.lastPlayed == at;
    assert q in all;
  }

  lemma FoldSummarises(tie: Tie, os: set<Observation>, existing: Observation, o: Observation)
    requires Summarises(os, o.client, existing)
    ensures Summarises(os + {o}, o.client, Fold(tie, existing, o))
  {
    var from := From(os, o.client);
    var all := From(os + {o}, o.client);
    assert all == from + {o};
    MaximaOfUnion(from, o, existing.entry.minutes, existing.entry.lastPlayed);
    var rolling := Fold(tie, existing, o);
    var newest :| newest in from && newest.entry.observedAt == existing.entry.observedAt
                  && newest.entry.recent == existing.entry.recent;
    assert newest in all && o in all;
  }

  lemma FirstSummarises(os: set<Observation>, o: Observation)
    requires From(os, o.client) == {o}
    ensures Summarises(os, o.client, o)
  {
    assert o in {o};
  }

  ghost predicate FolderSummarises(os: set<Observation>, folder: Folder) {
    && (forall c :: c in folder <==> exists o | o in os :: o.client == c)
    && (forall c | c in folder :: Summarises(os, c, folder[c]))
  }

  lemma UploadSummarises(tie: Tie, os: set<Observation>, folder: Folder, o: Observation)
    requires FolderSummarises(os, folder)
    ensures FolderSummarises(os + {o}, Upload(tie, folder, o))
  {
    hide Summarises, Fold;
    var all, after := os + {o}, Upload(tie, folder, o);
    assert o in all;
    forall c ensures c in after <==> exists p | p in all :: p.client == c {
      assert c in folder ==> exists p | p in all :: p.client == c;
    }
    forall c | c in after ensures Summarises(all, c, after[c]) {
      if c != o.client {
        assert From(all, c) == From(os, c);
        SameSummary(os, all, c, after[c]);
      } else if c in folder {
        FoldSummarises(tie, os, folder[c], o);
      } else {
        assert From(all, c) == {o};
        FirstSummarises(all, o);
      }
    }
  }

  lemma SameSummary(os: set<Observation>, all: set<Observation>, c: nat, rolling: Observation)
    requires From(all, c) == From(os, c) && Summarises(os, c, rolling)
    ensures Summarises(all, c, rolling)
  {
    hide IsMinutes, IsLastPlayed, From;
  }

  lemma {:induction false} FolderAfterSummarises(tie: Tie, uploads: seq<Observation>)
    ensures FolderSummarises(SetOf(uploads), FolderAfter(tie, uploads))
  {
    hide Upload;
    if uploads != [] {
      var front, last := uploads[..|uploads| - 1], uploads[|uploads| - 1];
      assert uploads == front + [last];
      assert SetOf(uploads) == SetOf(front) + {last};
      FolderAfterSummarises(tie, front);
      UploadSummarises(tie, SetOf(front), FolderAfter(tie, front), last);
    }
  }

  // ----- Compaction ----------------------------------------------------------------------

  lemma MinutesCompaction(os: set<Observation>, folder: Folder, minutes: nat)
    requires FolderSummarises(os, folder) && IsMinutes(os, minutes)
    ensures IsMinutes(folder.Values, minutes)
  {
    hide IsLastPlayed;
    forall r | r in folder.Values ensures r.entry.minutes <= minutes {
      var c :| c in folder && folder[c] == r;
      assert From(os, c) <= os;
    }
    var o :| o in os && o.entry.minutes == minutes;
    assert o.client in folder && o in From(os, o.client);
    assert folder[o.client] in folder.Values;
  }

  lemma LastPlayedCompaction(os: set<Observation>, folder: Folder, at: Option<int>)
    requires FolderSummarises(os, folder) && IsLastPlayed(os, at)
    ensures IsLastPlayed(folder.Values, at)
  {
    hide IsMinutes;
    forall r | r in folder.Values && r.entry.lastPlayed.Some?
      ensures at.Some? && r.entry.lastPlayed.value <= at.value
    {
      var c :| c in folder && folder[c] == r;
      assert From(os, c) <= os;
    }
    var o :| o in os && o.entry.lastPlayed == at;
    assert o.client in folder && o in From(os, o.client);
    assert folder[o.client] in folder.Values;
  }

  /** The last observation is alone at its device and time. */
  ghost predicate DecidedByTime(tie: Tie, os: set<Observation>) {
    forall o, p | IsLast(tie, os, o) && p in os && p.client == o.client
                  && p.entry.observedAt == o.entry.observedAt :: p == o
  }

  /** The observation whose time and recent minutes a rolling record carries. */
  lemma CarriedBy(os: set<Observation>, folder: Folder, c: nat) returns (p: Observation)
    requires FolderSummarises(os, folder) && c in folder
    ensures p in os && p.client == c && folder[c].client == c
    ensures p.entry.observedAt == folder[c].entry.observedAt
    ensures p.entry.recent == folder[c].entry.recent
    ensures forall o | o in os && o.client == c :: o.entry.observedAt <= p.entry.observedAt
  {
    hide IsMinutes, IsLastPlayed;
    assert Summarises(os, c, folder[c]);
    p :| p in From(os, c) && p.entry.observedAt == folder[c].entry.observedAt
         && p.entry.recent == folder[c].entry.recent;
    forall o | o in os && o.client == c ensures o.entry.observedAt <= p.entry.observedAt {
      assert o in From(os, c);
    }
  }

  /** The last observation's device has the last rolling record, at the same time. */
  lemma LastDevice(tie: Tie, os: set<Observation>, folder: Folder, o: Observation)
    requires FolderSummarises(os, folder) && IsLast(tie, os, o)
    ensures o.client in folder && IsLast(tie, folder.Values, folder[o.client])
    ensures folder[o.client].entry.observedAt == o.entry.observedAt
  {
    assert o.client in folder;
    var r := folder[o.client];
    var p := CarriedBy(os, folder, o.client);
    assert AtMost(Position(tie, p), Position(tie, o));
    assert r in folder.Values;
    forall s | s in folder.Values ensures AtMost(Position(tie, s), Position(tie, r)) {
      var c :| c in folder && folder[c] == s;
      var q := CarriedBy(os, folder, c);
      hide FolderSummarises;
      assert AtMost(Position(tie, q), Position(tie, o));
      assert c == o.client ==> s == r;
    }
  }

  /** Which upload's recent minutes a device's rolling record carries: the last one that on
  arrival did not precede the record. */
  function CarriedAt(tie: Tie, uploads: seq<Observation>, c: nat): (r: Option<nat>)
    ensures r.Some? ==> r.value < |uploads| && uploads[r.value].client == c
    ensures r.Some? <==> c in FolderAfter(tie, uploads)
  {
    if uploads == [] then None
    else
      var n := |uploads| - 1;
      var front, last := uploads[..n], uploads[n];
      var kept := CarriedAt(tie, front, c);
      if last.client == c && (kept.None? || !Precedes(tie, last, FolderAfter(tie, front)[c]))
      then Some(n) else kept
  }

  lemma {:induction false} CarriedValue(tie: Tie, uploads: seq<Observation>, c: nat)
    requires c in FolderAfter(tie, uploads)
    ensures uploads[CarriedAt(tie, uploads, c).value].entry.recent
            == FolderAfter(tie, uploads)[c].entry.recent
  {
    var front := uploads[..|uploads| - 1];
    if c in FolderAfter(tie, front) { CarriedValue(tie, front, c); }
  }

  /** Compaction: in any upload order, reducing the rolling records gives what reducing all
  observations gives, exactly when the record of the device observed last carries the recent
  minutes of the last observation. */
  lemma PlaytimeCompactionIff(tie: Tie, uploads: seq<Observation>, o: Observation, rolling: Entry,
                              raw: Entry)
    requires IsLast(tie, SetOf(uploads), o)
    requires IsTotal(tie, FolderAfter(tie, uploads).Values, rolling)
    requires IsTotal(tie, SetOf(uploads), raw)
    ensures rolling.(recent := 0) == raw.(recent := 0)
    ensures CarriedAt(tie, uploads, o.client).Some?
    ensures rolling == raw <==>
              uploads[CarriedAt(tie, uploads, o.client).value].entry.recent == raw.recent
  {
    hide IsMinutes, IsLastPlayed, FolderAfter, FolderSummarises, CarriedAt;
    var os, folder := SetOf(uploads), FolderAfter(tie, uploads);
    FolderAfterSummarises(tie, uploads);
    MinutesCompaction(os, folder, raw.minutes);
    LastPlayedCompaction(os, folder, raw.lastPlayed);
    MaximaUnique(folder.Values, rolling.minutes, rolling.lastPlayed, raw.minutes, raw.lastPlayed);
    LastDevice(tie, os, folder, o);
    var p :| IsLast(tie, os, p) && raw.recent == p.entry.recent
             && raw.observedAt == p.entry.observedAt;
    assert AtMost(Position(tie, p), Position(tie, o)) && AtMost(Position(tie, o), Position(tie, p));
    var r :| IsLast(tie, folder.Values, r) && rolling.recent == r.entry.recent
             && rolling.observedAt == r.entry.observedAt;
    SameLast(tie, os, folder, folder[o.client], r);
    CarriedValue(tie, uploads, o.client);
  }

  /** So it does when the last observation is alone at its device and time. */
  lemma PlaytimeCompaction(tie: Tie, uploads: seq<Observation>, rolling: Entry, raw: Entry)
    requires DecidedByTime(tie, SetOf(uploads))
    requires IsTotal(tie, FolderAfter(tie, uploads).Values, rolling)
    requires IsTotal(tie, SetOf(uploads), raw)
    ensures rolling == raw
  {
    hide IsMinutes, IsLastPlayed, FolderAfter, FolderSummarises, CarriedAt;
    var os, folder := SetOf(uploads), FolderAfter(tie, uploads);
    var o :| IsLast(tie, os, o) && raw.recent == o.entry.recent
             && raw.observedAt == o.entry.observedAt;
    PlaytimeCompactionIff(tie, uploads, o, rolling, raw);
    FolderAfterSummarises(tie, uploads);
    LastDevice(tie, os, folder, o);
    CarriedValue(tie, uploads, o.client);
    var p := CarriedBy(os, folder, o.client);
    assert p == o;
  }

  lemma MaximaUnique(os: set<Observation>, m: nat, x: Option<int>, n: nat, y: Option<int>)
    requires IsMinutes(os, m) && IsLastPlayed(os, x) && IsMinutes(os, n) && IsLastPlayed(os, y)
    ensures m == n && x == y
  {
  }

  /** Rolling records of different devices never tie. */
  lemma SameLast(tie: Tie, os: set<Observation>, folder: Folder, a: Observation, b: Observation)
    requires FolderSummarises(os, folder)
    requires IsLast(tie, folder.Values, a) && IsLast(tie, folder.Values, b)
    ensures a == b
  {
    hide IsMinutes, IsLastPlayed;
    assert AtMost(Position(tie, a), Position(tie, b)) && AtMost(Position(tie, b), Position(tie, a));
    var c :| c in folder && folder[c] == a;
    var d :| d in folder && folder[d] == b;
    assert a.client == c && b.client == d;
  }

  /** Total minutes and last-played never regress: whatever is uploaded next, in whatever
  order, the reduction of the rolling records shows at least as much. */
  lemma PlaytimeNeverRegresses(
    tie: Tie, uploads: seq<Observation>, more: seq<Observation>, before: Entry, after: Entry)
    requires IsTotal(tie, FolderAfter(tie, uploads).Values, before)
    requires IsTotal(tie, FolderAfter(tie, uploads + more).Values, after)
    ensures before.minutes <= after.minutes
    ensures before.lastPlayed.Some? ==>
              after.lastPlayed.Some? && before.lastPlayed.value <= after.lastPlayed.value
    ensures before.observedAt <= after.observedAt
  {
    hide FolderAfter, FolderSummarises;
    FolderAfterSummarises(tie, uploads);
    FolderAfterSummarises(tie, uploads + more);
    FolderNeverRegresses(tie, SetOf(uploads), SetOf(uploads + more), FolderAfter(tie, uploads),
                         FolderAfter(tie, uploads + more), before, after);
  }

  lemma FolderNeverRegresses(tie: Tie, os: set<Observation>, all: set<Observation>,
                             folder: Folder, later: Folder, before: Entry, after: Entry)
    requires os <= all && FolderSummarises(os, folder) && FolderSummarises(all, later)
    requires IsTotal(tie, folder.Values, before) && IsTotal(tie, later.Values, after)
    ensures before.minutes <= after.minutes
    ensures before.lastPlayed.Some? ==>
              after.lastPlayed.Some? && before.lastPlayed.value <= after.lastPlayed.value
    ensures before.observedAt <= after.observedAt
  {
    hide FolderSummarises;
    var r :| r in folder.Values && r.entry.minutes == before.minutes;
    ShownLater(os, all, folder, later, r);
    var s :| s in folder.Values && s.entry.lastPlayed == before.lastPlayed;
    ShownLater(os, all, folder, later, s);
    var t :| IsLast(tie, folder.Values, t) && t.entry.observedAt == before.observedAt;
    ShownLater(os, all, folder, later, t);
    var u :| IsLast(tie, later.Values, u) && u.entry.observedAt == after.observedAt;
    assert AtMost(Position(tie, later[t.client]), Position(tie, u));
  }

  lemma ShownLater(os: set<Observation>, all: set<Observation>, folder: Folder, later: Folder,
                   r: Observation)
    requires os <= all && FolderSummarises(os, folder) && FolderSummarises(all, later)
    requires r in folder.Values
    ensures r.client in later
    ensures var s := later[r.client];
            && s in later.Values
            && r.entry.minutes <= s.entry.minutes && r.entry.observedAt <= s.entry.observedAt
            && (r.entry.lastPlayed.Some? ==>
                  s.entry.lastPlayed.Some? && r.entry.lastPlayed.value <= s.entry.lastPlayed.value)
  {
    var c :| c in folder && folder[c] == r;
    assert From(os, c) <= From(all, c);
  }

  ghost predicate Injective(tie: Tie) {
    forall o, p :: tie(o) == tie(p) ==> o == p
  }

  /** A digest that puts four records first, in this order, and is otherwise the given one. */
  lemma Reordered(digest: Tie, a: Observation, b: Observation, c: Observation, d: Observation)
    returns (tie: Tie)
    requires Injective(digest)
    requires a != b && a != c && a != d && b != c && b != d && c != d
    ensures Injective(tie) && tie(a) == 0 && tie(b) == 1 && tie(c) == 2 && tie(d) == 3
  {
    tie := o => if o == a then 0 else if o == b then 1 else if o == c then 2
                else if o == d then 3 else digest(o) + 4;
  }

  /** With two observations of one device at the same time the digest decides, and the digest
  of the folded record is not that of the observation.  Starting from any digest, one that is
  injective and orders four records differently makes the two reductions differ. */
  lemma TiesCanDiffer(digest: Tie)
    returns (tie: Tie, uploads: seq<Observation>, rolling: Entry, raw: Entry)
    requires Injective(digest)
    ensures Injective(tie)
    ensures IsTotal(tie, FolderAfter(tie, uploads).Values, rolling)
    ensures IsTotal(tie, SetOf(uploads), raw) && rolling != raw
  {
    var a := Observation(1, Entry(10, 1, None, 5));
    var b := Observation(1, Entry(20, 2, None, 5));
    var c := Observation(1, Entry(0, 3, None, 5));
    var folded := Observation(1, Entry(20, 1, None, 5));
    hide IsTotal, FolderAfter, Fold, Injective;
    tie := Reordered(digest, b, folded, c, a);
    uploads, rolling, raw := [b, a, c], Entry(20, 3, None, 5), folded.entry;
    TiedFolds(tie, a, b, c);
    ThreeUploads(tie, b, a, c);
    var last := Observation(1, rolling);
    var folder := FolderAfter(tie, uploads);
    assert folder == map[1 := last];
    assert folder[1] in folder.Values;
    assert folder.Values == {last};
    AloneTotal(tie, last);
    assert SetOf(uploads) == {a, b, c};
    TiedTotal(tie, a, b, c);
  }

  lemma ThreeUploads(tie: Tie, a: Observation, b: Observation, c: Observation)
    requires a.client == b.client == c.client == Fold(tie, a, b).client
    ensures FolderAfter(tie, [a, b, c]) == map[a.client := Fold(tie, Fold(tie, a, b), c)]
  {
    hide Fold;
    assert [a, b, c][..2] == [a, b] && [a, b][..1] == [a] && [a][..0] == [];
    assert FolderAfter(tie, [a]) == map[a.client := a];
    assert FolderAfter(tie, [a, b]) == map[a.client := Fold(tie, a, b)];
  }

  lemma TiedFolds(tie: Tie, a: Observation, b: Observation, c: Observation)
    requires a == Observation(1, Entry(10, 1, None, 5)) && b == Observation(1, Entry(20, 2, None, 5))
    requires c == Observation(1, Entry(0, 3, None, 5))
    requires tie(b) < tie(a) && tie(Observation(1, Entry(20, 1, None, 5))) < tie(c)
    ensures Fold(tie, b, a) == Observation(1, Entry(20, 1, None, 5))
    ensures Fold(tie, Fold(tie, b, a), c) == Observation(1, Entry(20, 3, None, 5))
  {
  }

  lemma AloneTotal(tie: Tie, o: Observation)
    ensures IsTotal(tie, {o}, o.entry)
  {
    assert o in {o};
    assert IsLast(tie, {o}, o);
  }

  lemma TiedTotal(tie: Tie, a: Observation, b: Observation, c: Observation)
    requires a == Observation(1, Entry(10, 1, None, 5)) && b == Observation(1, Entry(20, 2, None, 5))
    requires c == Observation(1, Entry(0, 3, None, 5))
    requires tie(b) < tie(a) && tie(c) < tie(a)
    ensures IsTotal(tie, {a, b, c}, Entry(20, 1, None, 5))
  {
    assert b in {a, b, c};
    assert IsLast(tie, {a, b, c}, a);
  }

  // ----- The loops -----------------------------------------------------------------------

  /** Sort by position, as the reader does before it reduces. */
  function Insert(tie: Tie, sorted: seq<Observation>, o: Observation): seq<Observation> {
    if sorted == [] || !Less(Position(tie, o), Position(tie, sorted[|sorted| - 1]))
    then sorted + [o]
    else Insert(tie, sorted[..|sorted| - 1], o) + [sorted[|sorted| - 1]]
  }

  predicate InOrder(tie: Tie, os: seq<Observation>) {
    forall i, j | 0 <= i < j < |os| :: AtMost(Position(tie, os[i]), Position(tie, os[j]))
  }

  lemma {:induction false} InsertInOrder(tie: Tie, sorted: seq<Observation>, o: Observation)
    requires InOrder(tie, sorted)
    ensures InOrder(tie, Insert(tie, sorted, o))
    ensures forall p :: p in Insert(tie, sorted, o) <==> p in sorted || p == o
  {
    if sorted == [] || !Less(Position(tie, o), Position(tie, sorted[|sorted| - 1])) {
      AppendInOrder(tie, sorted, o);
    } else {
      var front, last := sorted[..|sorted| - 1], sorted[|sorted| - 1];
      assert sorted == front + [last];
      assert forall p | p in front :: AtMost(Position(tie, p), Position(tie, last));
      InsertInOrder(tie, front, o);
      hide InOrder, Less;
      assert AtMost(Position(tie, o), Position(tie, last));
      LastInOrder(tie, Insert(tie, front, o), last);
    }
  }

  lemma AppendInOrder(tie: Tie, sorted: seq<Observation>, o: Observation)
    requires InOrder(tie, sorted)
    requires sorted == [] || !Less(Position(tie, o), Position(tie, sorted[|sorted| - 1]))
    ensures Insert(tie, sorted, o) == sorted + [o]
    ensures InOrder(tie, sorted + [o])
  {
  }

  lemma LastInOrder(tie: Tie, placed: seq<Observation>, last: Observation)
    requires InOrder(tie, placed)
    requires forall p | p in placed :: AtMost(Position(tie, p), Position(tie, last))
    ensures InOrder(tie, placed + [last])
  {
    hide AtMost;
  }

  method Sort(tie: Tie, os: seq<Observation>) returns (sorted: seq<Observation>)
    ensures InOrder(tie, sorted) && SetOf(sorted) == SetOf(os)
  {
    sorted := [];
    for i := 0 to |os|
      invariant InOrder(tie, sorted)
      invariant forall o :: o in sorted <==> o in os[..i]
    {
      InsertInOrder(tie, sorted, os[i]);
      sorted := Insert(tie, sorted, os[i]);
    }
    assert os[..|os|] == os;
  }

  /** Reduce the records of all devices in the order of observation. */
  method ReducePlaytime(tie: Tie, records: seq<Observation>) returns (total: Option<Entry>)
    ensures total.None? <==> records == []
    ensures total.Some? ==> IsTotal(tie, SetOf(records), total.value)
  {
    if records == [] { return None; }
    var sorted := Sort(tie, records);
    assert records[0] in SetOf(records) && sorted != [];
    var current := sorted[0].entry;
    AloneTotal(tie, sorted[0]);
    assert SetOf(sorted[..1]) == {sorted[0]};
    for i := 1 to |sorted|
      invariant IsTotal(tie, SetOf(sorted[..i]), current)
    {
      var incoming := sorted[i].entry;
      assert SetOf(sorted[..i + 1]) == SetOf(sorted[..i]) + {sorted[i]};
      TotalStep(tie, sorted, i, current);
      current := Entry(
        if current.minutes > incoming.minutes then current.minutes else incoming.minutes,
        incoming.recent, Later(current.lastPlayed, incoming.lastPlayed), incoming.observedAt);
    }
    assert sorted[..|sorted|] == sorted;
    return Some(current);
  }

  lemma TotalStep(tie: Tie, sorted: seq<Observation>, i: nat, current: Entry)
    requires InOrder(tie, sorted) && i < |sorted| && IsTotal(tie, SetOf(sorted[..i]), current)
    ensures var o := sorted[i];
            IsTotal(tie, SetOf(sorted[..i]) + {o}, Entry(
              if current.minutes > o.entry.minutes then current.minutes else o.entry.minutes,
              o.entry.recent, Later(current.lastPlayed, o.entry.lastPlayed), o.entry.observedAt))
  {
    hide IsMinutes, IsLastPlayed, Later;
    var o, os := sorted[i], SetOf(sorted[..i]);
    MaximaOfUnion(os, o, current.minutes, current.lastPlayed);
    forall p | p in os + {o} ensures AtMost(Position(tie, p), Position(tie, o)) {
      if p in os {
        var j :| 0 <= j < i && sorted[j] == p;
      }
    }
    assert IsLast(tie, os + {o}, o);
  }
}
