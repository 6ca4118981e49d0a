/** The garbage-collection coordinator: revisions that outdate requests, requests deferred until
the synchroniser reports progress, and listener threads that wake the worker at most once. */
module GcCoordinator {
  import opened Wrappers

  /** An inspection key names a repository and a manifest scope, a listener key a repository and
  its synchroniser settings. */
  type Key = nat
  type ListenerKey = nat

  datatype Request = Request(
    key: Key, listener: Option<ListenerKey>, epoch: nat, revision: nat)

  datatype Registration = Registration(id: nat, wakeQueued: bool)

  /** The state behind the coordinator's mutex, and the epoch. */
  datatype Core = Core(
    epoch: nat, revisions: map<Key, nat>, deferred: map<Key, Request>,
    listeners: map<ListenerKey, Registration>, nextListener: nat)

  predicate IsCurrent(c: Core, r: Request) {
    r.epoch == c.epoch && r.key in c.revisions && c.revisions[r.key] == r.revision
  }

  /** Queueing outdates every earlier request for the key and cancels its deferral. */
  function Queue(c: Core, key: Key, listener: Option<ListenerKey>): (Core, Request) {
    var revision := 1 + if key in c.revisions then c.revisions[key] else 0;
    (c.(revisions := c.revisions[key := revision], deferred := c.deferred - {key}),
     Request(key, listener, c.epoch, revision))
  }

  function Invalidate(c: Core): Core {
    c.(epoch := c.epoch + 1, revisions := map[], deferred := map[], listeners := map[])
  }

  predicate HasListener(c: Core, listener: ListenerKey, id: nat) {
    listener in c.listeners && c.listeners[listener].id == id
  }

  /** The requests deferred on a listener. */
  function DeferredOn(c: Core, listener: ListenerKey): map<Key, Request> {
    map k | k in c.deferred && c.deferred[k].listener == Some(listener) :: c.deferred[k]
  }

  /** The current ones among the deferred requests of some keys. */
  function Released(c: Core, keys: set<Key>): map<Key, Request> {
    map k | k in keys && k in c.deferred && IsCurrent(c, c.deferred[k]) :: c.deferred[k]
  }

  /** An event of the registered listener releases every request deferred on it. */
  function Take(c: Core, listener: ListenerKey, id: nat): (Core, map<Key, Request>) {
    if !HasListener(c, listener, id) then (c, map[])
    else
      var keys := DeferredOn(c, listener).Keys;
      (c.(listeners := c.listeners[listener := Registration(id, false)],
          deferred := c.deferred - keys),
       Released(c, keys))
  }

  /** Defer a current request; the first one on a listener key registers a listener. */
  function Defer(c: Core, r: Request): (Core, Option<nat>) {
    if r.listener.None? || !IsCurrent(c, r) then (c, None)
    else
      var d := c.(deferred := c.deferred[r.key := r]);
      if r.listener.value in c.listeners then (d, None)
      else
        var id := c.nextListener + 1;
        (d.(listeners := c.listeners[r.listener.value := Registration(id, false)],
            nextListener := id), Some(id))
  }

  /** A finished request drops its deferral, and its listener once nothing waits on it. */
  function Finish(c: Core, r: Request): Core {
    if r.listener.None? then c
    else
      var d := c.(deferred := c.deferred - {r.key});
      if DeferredOn(d, r.listener.value) != map[] then d
      else d.(listeners := c.listeners - {r.listener.value})
  }

  function Forget(c: Core, listener: ListenerKey, id: nat): Core {
    if HasListener(c, listener, id) then c.(listeners := c.listeners - {listener}) else c
  }

  function Mark(c: Core, listener: ListenerKey, id: nat): (Core, bool) {
    if !HasListener(c, listener, id) || c.listeners[listener].wakeQueued then (c, false)
    else (c.(listeners := c.listeners[listener := Registration(id, true)]), true)
  }

  // ----- Threads and channel -------------------------------------------------------------

  datatype Message =
    | Inspect(request: Request)
    | Progress(listener: ListenerKey, id: nat)
    | Stopped(listener: ListenerKey, id: nat)

  type Thread = (ListenerKey, nat)

  /** Everything: the core, requests on their way to the channel, the channel, the worker, and
  the listener threads.  `issued` and `finished` record history, `lost` the listener keys whose
  last listener stopped or could not be started. */
  datatype World = World(
    core: Core, sending: set<Request>, channel: seq<Message>,
    pending: map<Key, Request>, batch: map<Key, Request>, active: Option<Request>,
    spawning: Option<Thread>, threads: set<Thread>, marked: set<Thread>,
    issued: set<Request>, finished: set<Request>, lost: set<ListenerKey>)

  const Start := World(Core(1, map[], map[], map[], 0), {}, [], map[], map[], None, None, {}, {},
                       {}, {}, {})

  predicate Newer(a: Request, b: Request) {
    a.epoch > b.epoch || (a.epoch == b.epoch && a.revision > b.revision)
  }

  /** Keep the newest request for each key. */
  function MergeOne(pending: map<Key, Request>, r: Request): map<Key, Request> {
    if r.key in pending && !Newer(r, pending[r.key]) then pending else pending[r.key := r]
  }

  function MergeAll(pending: map<Key, Request>, more: map<Key, Request>): map<Key, Request> {
    map k | k in pending.Keys + more.Keys ::
      if k in more && (k !in pending || Newer(more[k], pending[k])) then more[k] else pending[k]
  }

  datatype Outcome = Completed | MustWait

  datatype Step =
    | Queues(key: Key, listener: Option<ListenerKey>)
    | Sends(request: Request)
    | Invalidates
    | Receives
    | StartsBatch
    | Checks(key: Key)
    | Resolves(outcome: Outcome)
    | Spawns(ok: bool)
    | Marks(thread: Thread)
    | Reports(thread: Thread)
    | Stops(thread: Thread)
    | Leaves(thread: Thread)

  /** The worker takes messages only between batches. */
  predicate Receiving(w: World) {
    w.batch == map[] && w.active.None? && w.spawning.None?
  }

  function ReceiveStep(w: World): World
    requires w.channel != []
  {
    var t := w.(channel := w.channel[1..]);
    match w.channel[0]
    case Inspect(r) => t.(pending := MergeOne(w.pending, r))
    case Progress(listener, id) =>
      var (core, taken) := Take(w.core, listener, id);
      t.(core := core, pending := MergeAll(w.pending, taken))
    case Stopped(listener, id) =>
      t.(core := Forget(w.core, listener, id),
         lost := if HasListener(w.core, listener, id) then w.lost + {listener} else w.lost)
  }

  function ResolveStep(w: World, r: Request, outcome: Outcome): World {
    if outcome.Completed? then
      w.(core := Finish(w.core, r), active := None, finished := w.finished + {r})
    else
      var (core, id) := Defer(w.core, r);
      w.(core := core, active := None,
         finished := if r.listener.None? then w.finished + {r} else w.finished,
         spawning := if id.Some? then Some((r.listener.value, id.value)) else None,
         lost := if id.Some? then w.lost - {r.listener.value} else w.lost)
  }

  function Next(w: World, step: Step): World {
    match step
    case Queues(key, listener) =>
      var (core, r) := Queue(w.core, key, listener);
      w.(core := core, sending := w.sending + {r}, issued := w.issued + {r})
    case Sends(r) =>
      if r in w.sending then w.(sending := w.sending - {r}, channel := w.channel + [Inspect(r)])
      else w
    case Invalidates => w.(core := Invalidate(w.core), lost := {})
    case Receives => if Receiving(w) && w.channel != [] then ReceiveStep(w) else w
    case StartsBatch =>
      if Receiving(w) then w.(batch := w.pending, pending := map[]) else w
    case Checks(key) =>
      if w.active.Some? || w.spawning.Some? || key !in w.batch then w
      else w.(batch := w.batch - {key},
              active := if IsCurrent(w.core, w.batch[key]) then Some(w.batch[key]) else None)
    case Resolves(outcome) => if w.active.Some? then ResolveStep(w, w.active.value, outcome) else w
    case Spawns(ok) =>
      if w.spawning.None? then w
      else if ok then w.(spawning := None, threads := w.threads + {w.spawning.value})
      else
        var t := w.spawning.value;
        w.(spawning := None, core := Forget(w.core, t.0, t.1),
           lost := if HasListener(w.core, t.0, t.1) then w.lost + {t.0} else w.lost)
    case Marks(t) =>
      if t !in w.threads || t in w.marked then w
      else
        var (core, marked) := Mark(w.core, t.0, t.1);
        w.(core := core, marked := if marked then w.marked + {t} else w.marked)
    case Reports(t) =>
      if t in w.marked
      then w.(marked := w.marked - {t}, channel := w.channel + [Progress(t.0, t.1)]) else w
    case Stops(t) =>
      if t in w.threads && t !in w.marked
      then w.(threads := w.threads - {t}, channel := w.channel + [Stopped(t.0, t.1)]) else w
    case Leaves(t) =>
      if t !in w.marked && !HasListener(w.core, t.0, t.1)
      then w.(threads := w.threads - {t}) else w
  }

  function Run(w: World, steps: seq<Step>): World
    decreases |steps|
  {
    if steps == [] then w else Run(Next(w, steps[0]), steps[1..])
  }

  // ----- Requests ------------------------------------------------------------------------

  /** Every request ever issued is at or below its key's current position. */
  ghost predicate Numbered(c: Core, issued: set<Request>) {
    && (forall r | r in issued ::
          r.epoch < c.epoch
          || (r.epoch == c.epoch && r.key in c.revisions && r.revision <= c.revisions[r.key]))
    && (forall r, s | r in issued && s in issued && r.key == s.key && r.epoch == s.epoch
                      && r.revision == s.revision :: r == s)
  }

  ghost predicate Filed(requests: map<Key, Request>, issued: set<Request>) {
    forall k | k in requests :: requests[k].key == k && requests[k] in issued
  }

  /** Every deferred request is current and waits on a listener key. */
  ghost predicate DeferredCurrent(c: Core) {
    forall k | k in c.deferred :: IsCurrent(c, c.deferred[k]) && c.deferred[k].listener.Some?
  }

  ghost predicate GoodCore(c: Core, issued: set<Request>) {
    Numbered(c, issued) && Filed(c.deferred, issued) && DeferredCurrent(c)
  }

  ghost predicate Queued(channel: seq<Message>, issued: set<Request>) {
    forall m | m in channel && m.Inspect? :: m.request in issued
  }

  /** While a request is inspected, only its own deferral may stand for its key. */
  ghost predicate OwnDeferral(c: Core, active: Option<Request>) {
    active.Some? && active.value.key in c.deferred ==>
      c.deferred[active.value.key] == active.value
  }

  ghost predicate GoodRequests(w: World) {
    && GoodCore(w.core, w.issued) && OwnDeferral(w.core, w.active)
    && Filed(w.pending, w.issued) && Filed(w.batch, w.issued)
    && w.sending <= w.issued && w.finished <= w.issued
    && (w.active.Some? ==> w.active.value in w.issued)
    && Queued(w.channel, w.issued)
  }

  /** Where a request may be. */
  ghost predicate Somewhere(w: World, r: Request) {
    || r in w.sending || Inspect(r) in w.channel
    || (r.key in w.pending && w.pending[r.key] == r)
    || (r.key in w.batch && w.batch[r.key] == r)
    || w.active == Some(r)
    || (r.key in w.core.deferred && w.core.deferred[r.key] == r)
    || r in w.finished
  }

  /** No current request is forgotten. */
  ghost predicate Remembered(w: World) {
    forall r | r in w.issued && IsCurrent(w.core, r) :: Somewhere(w, r)
  }

  // ----- What each locked region keeps ----------------------------------------------------

  /** A later request outdates the earlier ones: two current requests for a key are one. */
  lemma OneCurrent(c: Core, issued: set<Request>, r: Request, s: Request)
    requires Numbered(c, issued) && r in issued && s in issued && r.key == s.key
    requires IsCurrent(c, r)
    ensures Newer(r, s) || r == s
    ensures IsCurrent(c, s) <==> r == s
  {
  }

  lemma QueueKeeps(c: Core, issued: set<Request>, key: Key, listener: Option<ListenerKey>)
    requires GoodCore(c, issued)
    ensures var (d, r) := Queue(c, key, listener);
            GoodCore(d, issued + {r}) && IsCurrent(d, r) && r !in issued
  {
    var (d, r) := Queue(c, key, listener);
    assert r !in issued;
  }

  lemma TakeKeeps(c: Core, issued: set<Request>, listener: ListenerKey, id: nat)
    requires GoodCore(c, issued)
    ensures var (d, taken) := Take(c, listener, id);
            && GoodCore(d, issued) && Filed(taken, issued)
            && d.epoch == c.epoch && d.revisions == c.revisions
            && (forall k | k in d.deferred :: k in c.deferred && d.deferred[k] == c.deferred[k])
            && (forall k | k in c.deferred ::
                  k in d.deferred || (k in taken && taken[k] == c.deferred[k]))
  {
  }

  lemma DeferKeeps(c: Core, issued: set<Request>, r: Request)
    requires GoodCore(c, issued) && r in issued
    ensures var d := Defer(c, r).0;
            && GoodCore(d, issued) && d.epoch == c.epoch && d.revisions == c.revisions
            && (d.deferred == c.deferred || d.deferred == c.deferred[r.key := r])
            && (IsCurrent(c, r) && r.listener.Some? ==> d.deferred == c.deferred[r.key := r])
  {
  }

  lemma FinishKeeps(c: Core, issued: set<Request>, r: Request)
    requires GoodCore(c, issued)
    ensures var d := Finish(c, r);
            && GoodCore(d, issued) && d.epoch == c.epoch && d.revisions == c.revisions
            && (d.deferred == c.deferred || d.deferred == c.deferred - {r.key})
  {
  }

  lemma ListenersApart(c: Core, issued: set<Request>, listeners: map<ListenerKey, Registration>)
    requires GoodCore(c, issued)
    ensures GoodCore(c.(listeners := listeners), issued)
  {
  }

  // ----- Every step keeps the requests ----------------------------------------------------

  lemma FirstMessage(s: seq<Message>)
    requires s != []
    ensures multiset(s) == multiset{s[0]} + multiset(s[1..])
    ensures forall m | m in s[1..] :: m in s
    ensures forall m | m in s :: m == s[0] || m in s[1..]
  {
    assert s == [s[0]] + s[1..];
  }

  lemma QueuesKeepsRequests(w: World, key: Key, listener: Option<ListenerKey>)
    requires GoodRequests(w) && Remembered(w)
    ensures GoodRequests(Next(w, Queues(key, listener)))
    ensures Remembered(Next(w, Queues(key, listener)))
  {
    QueueKeeps(w.core, w.issued, key, listener);
    var (core, r) := Queue(w.core, key, listener);
    var x := Next(w, Queues(key, listener));
    forall s | s in x.issued && IsCurrent(core, s) ensures Somewhere(x, s) {
      if s != r {
        if s.key == key { OneCurrent(core, x.issued, s, r); }
        assert Somewhere(w, s);
      }
    }
  }

  lemma SendsKeepsRequests(w: World, r: Request)
    requires GoodRequests(w) && Remembered(w)
    ensures GoodRequests(Next(w, Sends(r))) && Remembered(Next(w, Sends(r)))
  {
    hide GoodCore, OwnDeferral;
    var x := Next(w, Sends(r));
    forall s | s in x.issued && IsCurrent(x.core, s) ensures Somewhere(x, s) {
      assert Somewhere(w, s);
    }
  }

  lemma InvalidatesKeepsRequests(w: World)
    requires GoodRequests(w)
    ensures GoodRequests(Next(w, Invalidates)) && Remembered(Next(w, Invalidates))
  {
  }

  lemma MergeOneKeeps(c: Core, issued: set<Request>, pending: map<Key, Request>, r: Request)
    requires Numbered(c, issued) && Filed(pending, issued) && r in issued
    ensures Filed(MergeOne(pending, r), issued)
    ensures forall s | s in issued && IsCurrent(c, s)
                       && (s == r || (s.key in pending && pending[s.key] == s)) ::
              s.key in MergeOne(pending, r) && MergeOne(pending, r)[s.key] == s
  {
    forall s | s in issued && IsCurrent(c, s)
               && (s == r || (s.key in pending && pending[s.key] == s))
      ensures s.key in MergeOne(pending, r) && MergeOne(pending, r)[s.key] == s
    {
      if s.key == r.key { OneCurrent(c, issued, s, r); }
    }
  }

  lemma MergeAllKeeps(c: Core, issued: set<Request>, pending: map<Key, Request>,
                      more: map<Key, Request>)
    requires Numbered(c, issued) && Filed(pending, issued) && Filed(more, issued)
    ensures Filed(MergeAll(pending, more), issued)
    ensures forall s | s in issued && IsCurrent(c, s)
                       && ((s.key in more && more[s.key] == s)
                           || (s.key in pending && pending[s.key] == s)) ::
              s.key in MergeAll(pending, more) && MergeAll(pending, more)[s.key] == s
  {
    forall s | s in issued && IsCurrent(c, s)
               && ((s.key in more && more[s.key] == s)
                   || (s.key in pending && pending[s.key] == s))
      ensures s.key in MergeAll(pending, more) && MergeAll(pending, more)[s.key] == s
    {
      if s.key in pending { OneCurrent(c, issued, s, pending[s.key]); }
      if s.key in more { OneCurrent(c, issued, s, more[s.key]); }
    }
  }

  lemma ReceivesKeepsRequests(w: World)
    requires GoodRequests(w) && Remembered(w) && w.channel != [] && w.active.None?
    ensures GoodRequests(ReceiveStep(w)) && Remembered(ReceiveStep(w))
  {
    FirstMessage(w.channel);
    var x := ReceiveStep(w);
    match w.channel[0]
    case Inspect(r) =>
      MergeOneKeeps(w.core, w.issued, w.pending, r);
      forall s | s in x.issued && IsCurrent(x.core, s) ensures Somewhere(x, s) {
        assert Somewhere(w, s);
      }
    case Progress(listener, id) =>
      ProgressKeepsRequests(w, listener, id);
    case Stopped(listener, id) =>
      ListenersApart(w.core, w.issued, w.core.listeners - {listener});
      forall s | s in x.issued && IsCurrent(x.core, s) ensures Somewhere(x, s) {
        assert Somewhere(w, s);
      }
  }

  lemma ProgressKeepsRequests(w: World, listener: ListenerKey, id: nat)
    requires GoodRequests(w) && Remembered(w) && w.channel != [] && w.active.None?
    requires w.channel[0] == Progress(listener, id)
    ensures GoodRequests(ReceiveStep(w)) && Remembered(ReceiveStep(w))
  {
    hide Take, MergeAll;
    FirstMessage(w.channel);
    TakeKeeps(w.core, w.issued, listener, id);
    var (core, taken) := Take(w.core, listener, id);
    MergeAllKeeps(w.core, w.issued, w.pending, taken);
    var x := ReceiveStep(w);
    forall s | s in x.issued && IsCurrent(x.core, s) ensures Somewhere(x, s) {
      assert IsCurrent(w.core, s) && Somewhere(w, s);
    }
  }

  lemma BatchKeepsRequests(w: World)
    requires GoodRequests(w) && Remembered(w) && w.batch == map[]
    ensures GoodRequests(w.(batch := w.pending, pending := map[]))
    ensures Remembered(w.(batch := w.pending, pending := map[]))
  {
    hide GoodCore, OwnDeferral;
    var x := w.(batch := w.pending, pending := map[]);
    forall s | s in x.issued && IsCurrent(x.core, s) ensures Somewhere(x, s) {
      assert Somewhere(w, s);
    }
  }

  lemma ChecksKeepsRequests(w: World, key: Key)
    requires GoodRequests(w) && Remembered(w)
    ensures GoodRequests(Next(w, Checks(key))) && Remembered(Next(w, Checks(key)))
  {
    var x := Next(w, Checks(key));
    if w.active.None? && w.spawning.None? && key in w.batch {
      var r := w.batch[key];
      if IsCurrent(w.core, r) && key in w.core.deferred {
        OneCurrent(w.core, w.issued, r, w.core.deferred[key]);
      }
      forall s | s in x.issued && IsCurrent(x.core, s) ensures Somewhere(x, s) {
        assert Somewhere(w, s);
      }
    }
  }

  lemma ResolvesKeepsRequests(w: World, r: Request, outcome: Outcome)
    requires GoodRequests(w) && Remembered(w) && w.active == Some(r)
    ensures GoodRequests(ResolveStep(w, r, outcome)) && Remembered(ResolveStep(w, r, outcome))
  {
    hide Finish, Defer;
    FinishKeeps(w.core, w.issued, r);
    DeferKeeps(w.core, w.issued, r);
    var x := ResolveStep(w, r, outcome);
    forall s | s in x.issued && IsCurrent(x.core, s) ensures Somewhere(x, s) {
      assert IsCurrent(w.core, s) && Somewhere(w, s);
    }
  }

  /** Whatever changes only listeners and their threads leaves the requests alone. */
  lemma ListenersKeepRequests(w: World, x: World)
    requires GoodRequests(w) && Remembered(w)
    requires x.core == w.core.(listeners := x.core.listeners)
    requires x == w.(core := x.core, channel := x.channel, spawning := x.spawning,
                     threads := x.threads, marked := x.marked, lost := x.lost)
    requires forall m | m in x.channel && m.Inspect? :: m in w.channel
    requires forall m | m in w.channel :: m in x.channel
    ensures GoodRequests(x) && Remembered(x)
  {
    ListenersApart(w.core, w.issued, x.core.listeners);
    forall s | s in x.issued && IsCurrent(x.core, s) ensures Somewhere(x, s) {
      assert Somewhere(w, s);
    }
  }

  lemma RequestsKept(w: World, step: Step)
    requires GoodRequests(w) && Remembered(w)
    ensures GoodRequests(Next(w, step)) && Remembered(Next(w, step))
  {
    hide GoodRequests, Remembered, ResolveStep, ReceiveStep;
    match step
    case Queues(key, listener) => QueuesKeepsRequests(w, key, listener);
    case Sends(r) => SendsKeepsRequests(w, r);
    case Invalidates => InvalidatesKeepsRequests(w);
    case Receives => if Receiving(w) && w.channel != [] { ReceivesKeepsRequests(w); }
    case StartsBatch => if Receiving(w) { BatchKeepsRequests(w); }
    case Checks(key) => ChecksKeepsRequests(w, key);
    case Resolves(outcome) =>
      if w.active.Some? { ResolvesKeepsRequests(w, w.active.value, outcome); }
    case Spawns(ok) => ListenersKeepRequests(w, Next(w, step));
    case Marks(t) => ListenersKeepRequests(w, Next(w, step));
    case Reports(t) => ListenersKeepRequests(w, Next(w, step));
    case Stops(t) => ListenersKeepRequests(w, Next(w, step));
    case Leaves(t) => ListenersKeepRequests(w, Next(w, step));
  }

  // ----- Listeners -----------------------------------------------------------------------

  /** Ids are never reused: everything in flight carries one already given out. */
  ghost predicate GivenOut(listeners: map<ListenerKey, Registration>, channel: seq<Message>,
                           threads: set<Thread>, marked: set<Thread>, last: nat) {
    && (forall l | l in listeners :: listeners[l].id <= last)
    && (forall t | t in threads :: t.1 <= last)
    && (forall t | t in marked :: t.1 <= last)
    && (forall m | m in channel && m.Progress? :: m.id <= last)
  }

  ghost predicate Identified(w: World) {
    && GivenOut(w.core.listeners, w.channel, w.threads, w.marked, w.core.nextListener)
    && (w.spawning.Some? ==> w.spawning.value.1 <= w.core.nextListener)
  }

  function InFlight(channel: seq<Message>, marked: set<Thread>, t: Thread): nat {
    multiset(channel)[Progress(t.0, t.1)] + if t in marked then 1 else 0
  }

  ghost predicate Counted(listeners: map<ListenerKey, Registration>, channel: seq<Message>,
                          marked: set<Thread>) {
    forall l | l in listeners ::
      InFlight(channel, marked, (l, listeners[l].id)) == if listeners[l].wakeQueued then 1 else 0
  }

  /** `wakeQueued` holds exactly when one event for the registration is in flight. */
  ghost predicate WakesCounted(w: World) {
    Identified(w) && Counted(w.core.listeners, w.channel, w.marked)
  }

  /** Every deferred request has a registered listener, unless that listener was lost. */
  ghost predicate Attended(c: Core, lost: set<ListenerKey>) {
    && (forall k | k in c.deferred && c.deferred[k].listener.Some? ::
          c.deferred[k].listener.value in c.listeners || c.deferred[k].listener.value in lost)
    && (forall l | l in lost :: l !in c.listeners)
  }

  /** Every registration has a thread: running, about to start, or its stop is on the way. */
  ghost predicate Staffed(w: World) {
    && (w.active.Some? ==> w.spawning.None?)
    && forall l | l in w.core.listeners ::
         var t := (l, w.core.listeners[l].id);
         t in w.threads || w.spawning == Some(t) || Stopped(l, t.1) in w.channel
  }

  // ----- Every step keeps the listeners ---------------------------------------------------

  /** The registration an event was for is the one it clears. */
  lemma DeliveryCounted(listeners: map<ListenerKey, Registration>, channel: seq<Message>,
                        marked: set<Thread>, after: map<ListenerKey, Registration>)
    requires channel != [] && Counted(listeners, channel, marked)
    requires forall l | l in after ::
               l in listeners
               && after[l] == if channel[0] == Progress(l, listeners[l].id)
                              then Registration(listeners[l].id, false) else listeners[l]
    ensures Counted(after, channel[1..], marked)
  {
    FirstMessage(channel);
    forall l | l in after
      ensures InFlight(channel[1..], marked, (l, after[l].id))
              == if after[l].wakeQueued then 1 else 0
    {
      assert InFlight(channel, marked, (l, listeners[l].id))
             == if listeners[l].wakeQueued then 1 else 0;
      assert multiset(channel)[Progress(l, listeners[l].id)]
             == multiset(channel[1..])[Progress(l, listeners[l].id)]
                + if channel[0] == Progress(l, listeners[l].id) then 1 else 0;
    }
  }

  lemma ReceivesKeepsWakes(w: World)
    requires WakesCounted(w) && w.channel != []
    ensures WakesCounted(ReceiveStep(w))
  {
    hide Counted, ReceiveStep;
    ReceivedListeners(w);
    DeliveryCounted(w.core.listeners, w.channel, w.marked, ReceiveStep(w).core.listeners);
    FirstMessage(w.channel);
  }

  /** Receiving clears the flag of the registration an event was for, or drops a registration. */
  lemma ReceivedListeners(w: World)
    requires w.channel != []
    ensures var x := ReceiveStep(w);
            && x.channel == w.channel[1..] && x.marked == w.marked && x.threads == w.threads
            && x.spawning == w.spawning && x.core.nextListener == w.core.nextListener
            && forall l | l in x.core.listeners ::
                 l in w.core.listeners
                 && x.core.listeners[l] == if w.channel[0] == Progress(l, w.core.listeners[l].id)
                                           then Registration(w.core.listeners[l].id, false)
                                           else w.core.listeners[l]
  {
    hide MergeAll, DeferredOn, Released, MergeOne;
  }

  lemma ResolvesKeepsWakes(w: World, r: Request, outcome: Outcome)
    requires WakesCounted(w)
    ensures WakesCounted(ResolveStep(w, r, outcome))
  {
    hide DeferredOn;
    var x := ResolveStep(w, r, outcome);
    forall l | l in x.core.listeners
      ensures InFlight(w.channel, w.marked, (l, x.core.listeners[l].id))
              == if x.core.listeners[l].wakeQueued then 1 else 0
    {
    }
  }

  lemma SendKeepsWakes(w: World, m: Message, marked: set<Thread>)
    requires WakesCounted(w) && (m.Progress? ==> m.id <= w.core.nextListener)
    requires if m.Progress? then (m.listener, m.id) in w.marked
                                 && marked == w.marked - {(m.listener, m.id)}
             else marked == w.marked
    ensures GivenOut(w.core.listeners, w.channel + [m], w.threads, marked, w.core.nextListener)
    ensures Counted(w.core.listeners, w.channel + [m], marked)
  {
    var channel := w.channel + [m];
    assert multiset(channel) == multiset(w.channel) + multiset{m};
    forall l | l in w.core.listeners
      ensures InFlight(channel, marked, (l, w.core.listeners[l].id))
              == if w.core.listeners[l].wakeQueued then 1 else 0
    {
      assert InFlight(w.channel, w.marked, (l, w.core.listeners[l].id))
             == if w.core.listeners[l].wakeQueued then 1 else 0;
    }
  }

  lemma WakesKept(w: World, step: Step)
    requires WakesCounted(w)
    ensures WakesCounted(Next(w, step))
  {
    hide ReceiveStep, ResolveStep;
    match step
    case Receives => if Receiving(w) && w.channel != [] { ReceivesKeepsWakes(w); }
    case Resolves(outcome) =>
      if w.active.Some? { ResolvesKeepsWakes(w, w.active.value, outcome); }
    case Sends(r) => SendKeepsWakes(w, Inspect(r), w.marked);
    case Stops(t) => SendKeepsWakes(w, Stopped(t.0, t.1), w.marked);
    case Reports(t) =>
      if t in w.marked { SendKeepsWakes(w, Progress(t.0, t.1), w.marked - {t}); }
    case _ =>
  }

  lemma StaffedKept(w: World, step: Step)
    requires Staffed(w)
    ensures Staffed(Next(w, step))
  {
    if w.channel != [] { FirstMessage(w.channel); }
  }

  lemma FinishKeepsAttended(c: Core, lost: set<ListenerKey>, r: Request)
    requires Attended(c, lost)
    ensures Attended(Finish(c, r), lost)
  {
    var d := Finish(c, r);
    forall k | k in d.deferred && d.deferred[k].listener.Some?
      ensures d.deferred[k].listener.value in d.listeners
              || d.deferred[k].listener.value in lost
    {
      assert k in c.deferred;
      if r.listener == d.deferred[k].listener {
        assert k in DeferredOn(c.(deferred := c.deferred - {r.key}), r.listener.value);
      }
    }
  }

  lemma AttendedKept(w: World, step: Step)
    requires Attended(w.core, w.lost)
    ensures Attended(Next(w, step).core, Next(w, step).lost)
  {
    hide Finish, MergeAll;
    if w.active.Some? { FinishKeepsAttended(w.core, w.lost, w.active.value); }
  }

  // ----- Every run ------------------------------------------------------------------------

  ghost predicate Good(w: World) {
    && GoodRequests(w) && Remembered(w)
    && WakesCounted(w) && Staffed(w) && Attended(w.core, w.lost)
  }

  lemma {:induction false} RunGood(w: World, steps: seq<Step>)
    requires Good(w)
    ensures Good(Run(w, steps))
    decreases |steps|
  {
    if steps != [] {
      hide Next, GoodRequests, Remembered, WakesCounted, Staffed, Attended;
      RequestsKept(w, steps[0]);
      WakesKept(w, steps[0]);
      StaffedKept(w, steps[0]);
      AttendedKept(w, steps[0]);
      RunGood(Next(w, steps[0]), steps[1..]);
    }
  }

  lemma Reachable(steps: seq<Step>) returns (w: World)
    ensures w == Run(Start, steps) && Good(w)
  {
    w := Run(Start, steps);
    RunGood(Start, steps);
  }

  /** A request is issued above every earlier one for its key, although the revisions start again
  when everything is invalidated. */
  lemma IssuedIncrease(steps: seq<Step>, key: Key, listener: Option<ListenerKey>, s: Request)
    requires s in Run(Start, steps).issued && s.key == key
    ensures Newer(Queue(Run(Start, steps).core, key, listener).1, s)
  {
    var w := Reachable(steps);
    QueueKeeps(w.core, w.issued, key, listener);
    var (d, r) := Queue(w.core, key, listener);
    OneCurrent(d, w.issued + {r}, r, s);
  }

  /** Of all the requests ever issued for a key, at most one is current, and it is the newest. */
  lemma OnlyTheNewestIsCurrent(steps: seq<Step>, r: Request, s: Request)
    requires var w := Run(Start, steps);
             r in w.issued && s in w.issued && r.key == s.key && IsCurrent(w.core, r)
    ensures r == s || (Newer(r, s) && !IsCurrent(Run(Start, steps).core, s))
  {
    var w := Reachable(steps);
    OneCurrent(w.core, w.issued, r, s);
  }

  /** A current request is never forgotten: it is on its way to the worker, in the worker's
  hands, deferred, or dealt with. */
  lemma CurrentNeverForgotten(steps: seq<Step>, r: Request)
    requires var w := Run(Start, steps); r in w.issued && IsCurrent(w.core, r)
    ensures Somewhere(Run(Start, steps), r)
  {
    var w := Reachable(steps);
  }

  /** A deferred request is current, and it has a registered listener with a thread behind it
  exactly when the last listener of its key neither stopped nor failed to start. */
  lemma DeferredIsAttended(steps: seq<Step>, k: Key)
    requires k in Run(Start, steps).core.deferred
    ensures var w := Run(Start, steps);
            && IsCurrent(w.core, w.core.deferred[k]) && w.core.deferred[k].listener.Some?
            && var l := w.core.deferred[k].listener.value;
            && (l in w.core.listeners <==> l !in w.lost)
            && (l in w.core.listeners ==>
                  var t := (l, w.core.listeners[l].id);
                  t in w.threads || w.spawning == Some(t) || Stopped(l, t.1) in w.channel)
  {
    var w := Reachable(steps);
  }

  /** A listener whose wake is refused has an event in flight already: exactly one, and none
  while its wake would be granted.  So no wake is lost and none is sent twice. */
  lemma WakeRefusedIffInFlight(steps: seq<Step>, l: ListenerKey, id: nat)
    requires HasListener(Run(Start, steps).core, l, id)
    ensures var w := Run(Start, steps);
            && InFlight(w.channel, w.marked, (l, id)) <= 1
            && (!Mark(w.core, l, id).1 <==> InFlight(w.channel, w.marked, (l, id)) == 1)
  {
    var w := Reachable(steps);
    assert InFlight(w.channel, w.marked, (l, w.core.listeners[l].id))
           == if w.core.listeners[l].wakeQueued then 1 else 0;
  }

  /** Delivering that event hands every request deferred on the listener to the worker. */
  lemma DeliveryReleasesAll(steps: seq<Step>, k: Key)
    requires var w := Run(Start, steps);
             && Receiving(w) && w.channel != [] && w.channel[0].Progress?
             && HasListener(w.core, w.channel[0].listener, w.channel[0].id)
             && k in w.core.deferred
             && w.core.deferred[k].listener == Some(w.channel[0].listener)
    ensures var w := Run(Start, steps); var x := Next(w, Receives);
            && k !in x.core.deferred
            && k in x.pending && x.pending[k] == w.core.deferred[k]
  {
    var w := Reachable(steps);
    TakenIsMerged(w.core, w.issued, w.pending, w.channel[0].listener, w.channel[0].id, k);
  }

  lemma TakenIsMerged(c: Core, issued: set<Request>, pending: map<Key, Request>,
                      listener: ListenerKey, id: nat, k: Key)
    requires GoodCore(c, issued) && Filed(pending, issued) && HasListener(c, listener, id)
    requires k in c.deferred && c.deferred[k].listener == Some(listener)
    ensures var (d, taken) := Take(c, listener, id);
            && k !in d.deferred
            && k in MergeAll(pending, taken) && MergeAll(pending, taken)[k] == c.deferred[k]
  {
    TakeKeeps(c, issued, listener, id);
    MergeAllKeeps(c, issued, pending, Take(c, listener, id).1);
    assert c.deferred[k].key == k;
  }

  /** A listener that could not be started strands the request deferred on it. */
  lemma LostListenerStrands()
    ensures var w := Run(Start, [Queues(0, Some(0)), Sends(Request(0, Some(0), 1, 1)), Receives,
                                 StartsBatch, Checks(0), Resolves(MustWait), Spawns(false)]);
            0 in w.core.deferred && w.core.listeners == map[] && 0 in w.lost
  {
    var r := Request(0, Some(0), 1, 1);
    var w1 := Next(Next(Next(Start, Queues(0, Some(0))), Sends(r)), Receives);
    assert w1.pending == map[0 := r] && w1.core == Core(1, map[0 := 1], map[], map[], 0);
    var w2 := Next(Next(w1, StartsBatch), Checks(0));
    assert w2.active == Some(r) && w2.spawning.None? && w2.lost == {};
    var w3 := Next(Next(w2, Resolves(MustWait)), Spawns(false));
    assert w3.core.listeners == map[] && 0 in w3.core.deferred && 0 in w3.lost;
    RunOf7(Start, Queues(0, Some(0)), Sends(r), Receives, StartsBatch, Checks(0),
           Resolves(MustWait), Spawns(false));
  }

  lemma RunOf7(w: World, a: Step, b: Step, c: Step, d: Step, e: Step, f: Step, g: Step)
    ensures Run(w, [a, b, c, d, e, f, g])
            == Next(Next(Next(Next(Next(Next(Next(w, a), b), c), d), e), f), g)
  {
    hide Next;
    var w1 := Next(w, a);
    var w2 := Next(w1, b);
    var w3 := Next(w2, c);
    var w4 := Next(w3, d);
    var w5 := Next(w4, e);
    var w6 := Next(w5, f);
    RunStep(w, a, [b, c, d, e, f, g]);
    RunStep(w1, b, [c, d, e, f, g]);
    RunStep(w2, c, [d, e, f, g]);
    RunStep(w3, d, [e, f, g]);
    RunStep(w4, e, [f, g]);
    RunStep(w5, f, [g]);
    RunStep(w6, g, []);
  }

  lemma RunStep(w: World, step: Step, rest: seq<Step>)
    ensures Run(w, [step] + rest) == Run(Next(w, step), rest)
  {
    assert ([step] + rest)[1..] == rest;
  }

  // ----- The locked regions as the code runs them -----------------------------------------

  lemma ReleasedNone(c: Core)
    ensures Released(c, {}) == map[]
  {
  }

  lemma ReleasedOneMore(c: Core, keys: set<Key>, key: Key)
    requires key in c.deferred && key !in keys
    ensures Released(c, keys + {key})
            == if IsCurrent(c, c.deferred[key]) then Released(c, keys)[key := c.deferred[key]]
               else Released(c, keys)
  {
  }

  class CoordinatorState {
    var epoch: nat
    var revisions: map<Key, nat>
    var deferred: map<Key, Request>
    var listeners: map<ListenerKey, Registration>
    var nextListener: nat

    function Value(): Core
      reads this
    {
      Core(epoch, revisions, deferred, listeners, nextListener)
    }

    constructor ()
      ensures Value() == Start.core
    {
      epoch, revisions, deferred, listeners, nextListener := 1, map[], map[], map[], 0;
    }

    method QueueInspection(key: Key, listener: Option<ListenerKey>) returns (r: Request)
      modifies this
      ensures (Value(), r) == Queue(old(Value()), key, listener)
    {
      if key !in revisions { revisions := revisions[key := 0]; }
      revisions := revisions[key := revisions[key] + 1];
      deferred := deferred - {key};
      r := Request(key, listener, epoch, revisions[key]);
      assert revisions == old(revisions)[key := r.revision];
    }

    method InvalidateAll()
      modifies this
      ensures Value() == Invalidate(old(Value()))
    {
      epoch, revisions, deferred, listeners := epoch + 1, map[], map[], map[];
    }

    method TakeDeferred(listener: ListenerKey, id: nat) returns (requests: map<Key, Request>)
      modifies this
      ensures (Value(), requests) == Take(old(Value()), listener, id)
    {
      if listener !in listeners || listeners[listener].id != id { return map[]; }
      var keys := set k | k in deferred && deferred[k].listener == Some(listener);
      assert keys == DeferredOn(Value(), listener).Keys;
      requests := Release(keys);
      listeners := listeners[listener := Registration(id, false)];
    }

    /** Remove the given deferrals, handing back the ones still current. */
    method Release(keys: set<Key>) returns (requests: map<Key, Request>)
      requires keys <= deferred.Keys
      modifies this`deferred
      ensures deferred == old(deferred) - keys && requests == Released(old(Value()), keys)
    {
      hide Released;
      requests := map[];
      ReleasedNone(Value());
      var todo := keys;
      assert keys - todo == {};
      while todo != {}
        invariant todo <= keys && keys <= old(deferred).Keys
        invariant deferred == old(deferred) - (keys - todo)
        invariant requests == Released(old(Value()), keys - todo)
        decreases |todo|
      {
        var key :| key in todo;
        var request := deferred[key];
        ReleasedOneMore(old(Value()), keys - todo, key);
        assert keys - (todo - {key}) == keys - todo + {key};
        deferred := deferred - {key};
        if IsCurrent(Value(), request) { requests := requests[key := request]; }
        todo := todo - {key};
      }
      assert keys - {} == keys;
    }

    method DeferRequest(r: Request) returns (started: Option<nat>)
      modifies this
      ensures (Value(), started) == Defer(old(Value()), r)
    {
      started := None;
      if r.listener.None? || !IsCurrent(Value(), r) { return; }
      deferred := deferred[r.key := r];
      if r.listener.value !in listeners {
        nextListener := nextListener + 1;
        listeners := listeners[r.listener.value := Registration(nextListener, false)];
        started := Some(nextListener);
      }
    }

    method FinishRequest(r: Request)
      modifies this
      ensures Value() == Finish(old(Value()), r)
    {
      if r.listener.None? { return; }
      deferred := deferred - {r.key};
      var todo := deferred.Keys;
      while todo != {}
        invariant todo <= deferred.Keys
        invariant forall k | k in deferred && k !in todo :: deferred[k].listener != r.listener
        decreases |todo|
      {
        var key :| key in todo;
        if deferred[key].listener == r.listener {
          assert key in DeferredOn(Value(), r.listener.value);
          return;
        }
        todo := todo - {key};
      }
      assert DeferredOn(Value(), r.listener.value) == map[];
      listeners := listeners - {r.listener.value};
    }

    method MarkWakeQueued(listener: ListenerKey, id: nat) returns (send: bool)
      modifies this
      ensures (Value(), send) == Mark(old(Value()), listener, id)
    {
      if listener !in listeners || listeners[listener].id != id || listeners[listener].wakeQueued {
        return false;
      }
      listeners := listeners[listener := Registration(id, true)];
      send := true;
    }
  }

  /** The worker merges released requests one at a time. */
  method MergeRequests(pending: map<Key, Request>, more: map<Key, Request>)
    returns (merged: map<Key, Request>)
    requires forall k | k in more :: more[k].key == k
    ensures merged == MergeAll(pending, more)
  {
    merged := pending;
    var todo := more.Keys;
    while todo != {}
      invariant todo <= more.Keys
      invariant merged == MergeAll(pending, more - todo)
      decreases |todo|
    {
      var key :| key in todo;
      todo := todo - {key};
      merged := MergeOne(merged, more[key]);
    }
    assert more - {} == more;
  }
}
