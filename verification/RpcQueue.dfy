/** The queue of intercepted cloud requests: permits that bound the responses outstanding, the
worker's bounded channel, and the drain that hands completed responses back. */
module RpcQueue {
  import opened Wrappers

  const RPC_QUEUE_CAPACITY: nat := 64
  const RPC_CHANNEL_CAPACITY: nat := RPC_QUEUE_CAPACITY * 2

  type Packet = string

  /** The receiving end of a response: nothing yet, a packet, or the sender is gone. */
  datatype Slot = Waiting | Arrived(packet: Packet) | Dropped

  datatype Pending = Pending(slot: Slot, fallback: Packet, generation: nat)

  datatype Completed = Completed(packet: Packet, generation: nat)

  // ----- Draining ----------------------------------------------------------------------------

  predicate Ready(p: Pending) { !p.slot.Waiting? }

  /** What a ready response comes to: its packet, or the fallback when the worker is gone. */
  function Completion(p: Pending): Completed
    requires Ready(p)
  {
    Completed(if p.slot.Arrived? then p.slot.packet else p.fallback, p.generation)
  }

  /** The ready responses among some, as a multiset of completions. */
  function Completions(ps: seq<Pending>): multiset<Completed> {
    if ps == [] then multiset{}
    else
      var last := ps[|ps| - 1];
      Completions(ps[..|ps| - 1]) + if Ready(last) then multiset{Completion(last)} else multiset{}
  }

  function Unready(ps: seq<Pending>): multiset<Pending> {
    if ps == [] then multiset{}
    else
      var last := ps[|ps| - 1];
      Unready(ps[..|ps| - 1]) + if Ready(last) then multiset{} else multiset{last}
  }

  /** Of each entry that is not ready all copies are kept, of a ready one none. */
  lemma {:induction false} UnreadyCounts(ps: seq<Pending>, p: Pending)
    ensures Unready(ps)[p] == if Ready(p) then 0 else multiset(ps)[p]
  {
    if ps != [] {
      UnreadyCounts(ps[..|ps| - 1], p);
      assert ps == ps[..|ps| - 1] + [ps[|ps| - 1]];
    }
  }

  lemma {:induction false} CompletionsSplit(a: seq<Pending>, b: seq<Pending>)
    ensures Completions(a + b) == Completions(a) + Completions(b)
    ensures Unready(a + b) == Unready(a) + Unready(b)
  {
    if b == [] {
      assert a + b == a;
    } else {
      var front, last := b[..|b| - 1], b[|b| - 1];
      CompletionsSplit(a, front);
      assert (a + b)[..|a + b| - 1] == a + front && (a + b)[|a + b| - 1] == last;
    }
  }

  /** Removing one element by moving the last one into its place takes away that one. */
  function SwapRemoved<T>(ps: seq<T>, i: nat): seq<T>
    requires i < |ps|
  {
    ps[i := ps[|ps| - 1]][..|ps| - 1]
  }

  lemma SwapShape<T>(ps: seq<T>, i: nat) returns (a: seq<T>, b: seq<T>)
    requires i < |ps| - 1
    ensures ps == (a + [ps[i]]) + (b + [ps[|ps| - 1]])
    ensures SwapRemoved(ps, i) == (a + [ps[|ps| - 1]]) + b
  {
    a, b := ps[..i], ps[i + 1..|ps| - 1];
  }

  lemma SwapLast<T>(ps: seq<T>) returns (a: seq<T>)
    requires ps != []
    ensures ps == a + [ps[|ps| - 1]] && SwapRemoved(ps, |ps| - 1) == a
  {
    a := ps[..|ps| - 1];
  }

  lemma SwapRemove(ps: seq<Pending>, i: nat)
    requires i < |ps|
    ensures var rest := SwapRemoved(ps, i);
            && Completions(ps) == Completions(rest) + Completions([ps[i]])
            && Unready(ps) == Unready(rest) + Unready([ps[i]])
  {
    hide Completions, Unready, SwapRemoved;
    if i == |ps| - 1 {
      var a := SwapLast(ps);
      CompletionsSplit(a, [ps[i]]);
    } else {
      var a, b := SwapShape(ps, i);
      Moved(a, ps[i], b, ps[|ps| - 1]);
    }
  }

  lemma Moved(a: seq<Pending>, p: Pending, b: seq<Pending>, last: Pending)
    ensures Completions((a + [p]) + (b + [last])) == Completions((a + [last]) + b) + Completions([p])
    ensures Unready((a + [p]) + (b + [last])) == Unready((a + [last]) + b) + Unready([p])
  {
    hide Completions, Unready;
    CompletionsSplit(a + [p], b + [last]);
    CompletionsSplit(a, [p]);
    CompletionsSplit(b, [last]);
    CompletionsSplit(a + [last], b);
    CompletionsSplit(a, [last]);
  }

  lemma OneCompletion(p: Pending)
    ensures Completions([p]) == if Ready(p) then multiset{Completion(p)} else multiset{}
    ensures Unready([p]) == if Ready(p) then multiset{} else multiset{p}
  {
    assert [p][..0] == [];
  }

  lemma {:induction false} NoneReady(ps: seq<Pending>)
    requires forall i | 0 <= i < |ps| :: !Ready(ps[i])
    ensures Completions(ps) == multiset{} && Unready(ps) == multiset(ps)
  {
    if ps != [] {
      NoneReady(ps[..|ps| - 1]);
      assert ps == ps[..|ps| - 1] + [ps[|ps| - 1]];
    }
  }

  /** The pending responses of the queue. */
  class PendingTable {
    var pending: seq<Pending>

    constructor ()
      ensures pending == []
    {
      pending := [];
    }

    method Track(fallback: Packet, generation: nat)
      modifies this
      ensures pending == old(pending) + [Pending(Waiting, fallback, generation)]
    {
      pending := pending + [Pending(Waiting, fallback, generation)];
    }

    /** Hand back every ready response exactly once and keep exactly the others. */
    method DrainCompleted() returns (completed: seq<Completed>)
      modifies this
      ensures multiset(completed) == Completions(old(pending))
      ensures forall p: Pending :: multiset(pending)[p] == if Ready(p) then 0 else multiset(old(pending))[p]
      ensures |completed| + |pending| == |old(pending)|
      ensures forall p | p in pending :: !Ready(p)
    {
      hide Completions, Unready;
      completed := [];
      var index := 0;
      while index < |pending|
        invariant index <= |pending|
        invariant forall i | 0 <= i < index :: !Ready(pending[i])
        invariant multiset(completed) + Completions(pending) == Completions(old(pending))
        invariant Unready(pending) == Unready(old(pending))
        invariant |completed| + |pending| == |old(pending)|
        decreases |pending| - index
      {
        var entry := pending[index];
        if Ready(entry) {
          SwapRemove(pending, index);
          OneCompletion(entry);
          ghost var before := pending;
          pending := SwapRemoved(pending, index);
          assert forall i | 0 <= i < index :: pending[i] == before[i];
          completed := completed + [Completion(entry)];
        } else {
          index := index + 1;
        }
      }
      NoneReady(pending);
      forall p: Pending ensures Unready(old(pending))[p] == if Ready(p) then 0 else multiset(old(pending))[p] {
        UnreadyCounts(old(pending), p);
      }
    }
  }

  // ----- Permits and the channel -----------------------------------------------------------------

  type Id = nat

  /** A response is identified by its permit.  `held` are permits reserved but not yet tracked,
  `sending` the tracked ones whose request is on its way to the channel, `delivered` the permits
  of responses handed back and not yet dispatched.  A queued request is `None` when it expects no
  response. */
  datatype Queue = Queue(
    outstanding: nat, nextId: Id, held: set<Id>, sending: set<Id>, pending: map<Id, Slot>,
    channel: seq<Option<Id>>, working: Option<Option<Id>>, alive: bool, delivered: set<Id>)

  const Start := Queue(0, 0, {}, {}, map[], [], None, true, {})

  datatype Step =
    | Reserves
    | Tracks(id: Id)
    | Sends(id: Id, failure: Packet)
    | Notifies
    | Takes
    | Finishes(reply: Packet)
    | Dies
    | Drains(id: Id)
    | Dispatches(id: Id)

  /** The worker is gone: the responses in its hands are dropped. */
  function Abandoned(q: Queue): map<Id, Slot> {
    map id | id in q.pending ::
      if q.pending[id].Waiting? && (Some(id) in q.channel || q.working == Some(Some(id)))
      then Dropped else q.pending[id]
  }

  function Next(q: Queue, step: Step): Queue {
    match step
    case Reserves =>
      if q.outstanding < RPC_QUEUE_CAPACITY
      then q.(outstanding := q.outstanding + 1, held := q.held + {q.nextId}, nextId := q.nextId + 1)
      else q
    case Tracks(id) =>
      if id in q.held
      then q.(held := q.held - {id}, sending := q.sending + {id}, pending := q.pending[id := Waiting])
      else q
    case Sends(id, failure) =>
      if id !in q.sending then q
      else if q.alive && |q.channel| < RPC_CHANNEL_CAPACITY
      then q.(sending := q.sending - {id}, channel := q.channel + [Some(id)])
      else q.(sending := q.sending - {id}, pending := q.pending[id := Arrived(failure)])
    case Notifies =>
      if q.alive && |q.channel| < RPC_CHANNEL_CAPACITY then q.(channel := q.channel + [None]) else q
    case Takes =>
      if q.alive && q.working.None? && q.channel != []
      then q.(working := Some(q.channel[0]), channel := q.channel[1..]) else q
    case Finishes(reply) =>
      if q.working.None? then q
      else if q.working.value.None? then q.(working := None)
      else q.(working := None, pending := q.pending[q.working.value.value := Arrived(reply)])
    case Dies => q.(alive := false, pending := Abandoned(q), channel := [], working := None)
    case Drains(id) =>
      if id in q.pending && !q.pending[id].Waiting?
      then q.(pending := q.pending - {id}, delivered := q.delivered + {id}) else q
    case Dispatches(id) =>
      if id in q.delivered && q.outstanding > 0
      then q.(delivered := q.delivered - {id}, outstanding := q.outstanding - 1) else q
  }

  function Run(q: Queue, steps: seq<Step>): Queue
    decreases |steps|
  {
    if steps == [] then q else Run(Next(q, steps[0]), steps[1..])
  }

  /** Every live permit is counted once. */
  ghost predicate Counted(q: Queue) {
    && q.held !! q.pending.Keys && q.held !! q.delivered && q.pending.Keys !! q.delivered
    && q.outstanding == |q.held| + |q.pending| + |q.delivered| <= RPC_QUEUE_CAPACITY
    && (forall id | id in q.held || id in q.pending || id in q.delivered :: id < q.nextId)
  }

  /** A response still waited for is with exactly one party, the sender, the channel or the
  worker, and they hold no other. */
  ghost predicate PlacedOnce(q: Queue, id: Id) {
    var sending, queued, working :=
      id in q.sending, Some(id) in q.channel, q.working == Some(Some(id));
    && (sending || queued || working <==> id in q.pending && q.pending[id].Waiting?)
    && !(sending && queued) && !(sending && working) && !(queued && working)
  }

  ghost predicate Distinct(channel: seq<Option<Id>>) {
    forall i, j | 0 <= i < j < |channel| && channel[i].Some? :: channel[i] != channel[j]
  }

  ghost predicate Placed(q: Queue) {
    && (forall id: Id :: PlacedOnce(q, id))
    && Distinct(q.channel) && |q.channel| <= RPC_CHANNEL_CAPACITY
  }

  lemma TracksGood(q: Queue, id: Id)
    requires Counted(q) && Placed(q) && id in q.held
    ensures Counted(Next(q, Tracks(id))) && Placed(Next(q, Tracks(id)))
  {
    var x := Next(q, Tracks(id));
    assert x.pending.Keys == q.pending.Keys + {id};
    Sizes(q);
    Sizes(x);
    forall k: Id ensures PlacedOnce(x, k) { assert PlacedOnce(q, k); }
  }

  lemma Sizes(q: Queue)
    ensures |q.pending| == |q.pending.Keys|
  {
  }

  lemma SendsGood(q: Queue, id: Id, failure: Packet)
    requires Counted(q) && Placed(q) && id in q.sending
    ensures Counted(Next(q, Sends(id, failure))) && Placed(Next(q, Sends(id, failure)))
  {
    var x := Next(q, Sends(id, failure));
    assert PlacedOnce(q, id);
    assert x.pending.Keys == q.pending.Keys;
    Sizes(q);
    Sizes(x);
    forall k: Id ensures PlacedOnce(x, k) { assert PlacedOnce(q, k); }
  }

  lemma TakesGood(q: Queue)
    requires Placed(q) && q.alive && q.working.None? && q.channel != []
    ensures Placed(Next(q, Takes))
  {
    var x := Next(q, Takes);
    assert q.channel == [q.channel[0]] + x.channel;
    forall k: Id ensures PlacedOnce(x, k) {
      assert PlacedOnce(q, k);
      if q.channel[0] == Some(k) { FirstIsOnly(q.channel); }
    }
    hide PlacedOnce;
    assert Distinct(x.channel) by {
      forall i, j | 0 <= i < j < |x.channel| && x.channel[i].Some?
        ensures x.channel[i] != x.channel[j]
      {
        assert x.channel[i] == q.channel[i + 1] && x.channel[j] == q.channel[j + 1];
      }
    }
  }

  lemma FirstIsOnly(channel: seq<Option<Id>>)
    requires Distinct(channel) && channel != [] && channel[0].Some?
    ensures channel[0] !in channel[1..]
  {
    var rest := channel[1..];
    assert forall j | 0 <= j < |rest| :: rest[j] == channel[j + 1] && rest[j] != channel[0];
  }

  lemma FinishesGood(q: Queue, reply: Packet)
    requires Counted(q) && Placed(q) && q.working.Some?
    ensures Counted(Next(q, Finishes(reply))) && Placed(Next(q, Finishes(reply)))
  {
    var x := Next(q, Finishes(reply));
    if q.working.value.Some? { assert PlacedOnce(q, q.working.value.value); }
    assert x.pending.Keys == q.pending.Keys;
    Sizes(q);
    Sizes(x);
    forall k: Id ensures PlacedOnce(x, k) { assert PlacedOnce(q, k); }
  }

  lemma DiesGood(q: Queue)
    requires Counted(q) && Placed(q)
    ensures Counted(Next(q, Dies)) && Placed(Next(q, Dies))
  {
    var x := Next(q, Dies);
    assert x.pending.Keys == q.pending.Keys;
    Sizes(q);
    Sizes(x);
    forall k: Id ensures PlacedOnce(x, k) { assert PlacedOnce(q, k); }
  }

  lemma DrainsGood(q: Queue, id: Id)
    requires Counted(q) && Placed(q) && id in q.pending && !q.pending[id].Waiting?
    ensures Counted(Next(q, Drains(id))) && Placed(Next(q, Drains(id)))
  {
    var x := Next(q, Drains(id));
    assert x.pending.Keys == q.pending.Keys - {id};
    Sizes(q);
    Sizes(x);
    forall k: Id ensures PlacedOnce(x, k) { assert PlacedOnce(q, k); }
  }

  lemma NotifiesGood(q: Queue)
    requires Placed(q)
    ensures Placed(Next(q, Notifies))
  {
    var x := Next(q, Notifies);
    forall k: Id ensures PlacedOnce(x, k) { assert PlacedOnce(q, k); }
  }

  lemma PermitSteps(q: Queue, step: Step)
    requires Counted(q) && Placed(q) && (step.Reserves? || step.Dispatches?)
    ensures Counted(Next(q, step)) && Placed(Next(q, step))
  {
    var x := Next(q, step);
    forall k: Id ensures PlacedOnce(x, k) { assert PlacedOnce(q, k); }
  }

  lemma NextGood(q: Queue, step: Step)
    requires Counted(q) && Placed(q)
    ensures Counted(Next(q, step)) && Placed(Next(q, step))
  {
    hide Placed;
    match step
    case Tracks(id) => if id in q.held { TracksGood(q, id); }
    case Sends(id, failure) => if id in q.sending { SendsGood(q, id, failure); }
    case Takes => if q.alive && q.working.None? && q.channel != [] { TakesGood(q); }
    case Finishes(reply) => if q.working.Some? { FinishesGood(q, reply); }
    case Dies => DiesGood(q);
    case Drains(id) => if id in q.pending && !q.pending[id].Waiting? { DrainsGood(q, id); }
    case Notifies => NotifiesGood(q);
    case _ => PermitSteps(q, step);
  }

  lemma {:induction false} RunGood(q: Queue, steps: seq<Step>)
    requires Counted(q) && Placed(q)
    ensures Counted(Run(q, steps)) && Placed(Run(q, steps))
    decreases |steps|
  {
    hide Next, Counted, Placed;
    if steps != [] {
      NextGood(q, steps[0]);
      RunGood(Next(q, steps[0]), steps[1..]);
    }
  }

  // ----- Main results ---------------------------------------------------------------------------------

  /** How many queued requests expect a response. */
  function Responses(channel: seq<Option<Id>>): nat {
    if channel == [] then 0
    else Responses(channel[..|channel| - 1]) + if channel[|channel| - 1].Some? then 1 else 0
  }

  function IdsOf(channel: seq<Option<Id>>): set<Id> {
    set o | o in channel && o.Some? :: o.value
  }

  lemma {:induction false} ResponsesAreIds(channel: seq<Option<Id>>)
    requires Distinct(channel)
    ensures Responses(channel) == |IdsOf(channel)|
  {
    if channel != [] {
      var front, last := channel[..|channel| - 1], channel[|channel| - 1];
      ResponsesAreIds(front);
      assert channel == front + [last];
      if last.Some? {
        assert forall i | 0 <= i < |front| :: front[i] == channel[i] && front[i] != last;
        assert IdsOf(channel) == IdsOf(front) + {last.value};
      } else {
        assert IdsOf(channel) == IdsOf(front);
      }
    }
  }

  lemma SubsetSize(a: set<Id>, b: set<Id>)
    requires a <= b
    ensures |a| <= |b|
  {
    if a != {} {
      var x :| x in a;
      SubsetSize(a - {x}, b - {x});
    }
  }

  /** In every reachable state the counter is the number of live permits and at most 64, and the
  requests that expect a response take at most half of the worker's channel. */
  lemma PermitsConserved(steps: seq<Step>)
    ensures var q := Run(Start, steps);
            && q.outstanding == |q.held| + |q.pending| + |q.delivered| <= RPC_QUEUE_CAPACITY
            && Responses(q.channel) <= |q.pending|
            && 2 * Responses(q.channel) <= RPC_CHANNEL_CAPACITY
            && |q.channel| <= RPC_CHANNEL_CAPACITY
  {
    RunGood(Start, steps);
    var q := Run(Start, steps);
    ResponsesAreIds(q.channel);
    forall id | id in IdsOf(q.channel) ensures id in q.pending { assert PlacedOnce(q, id); }
    SubsetSize(IdsOf(q.channel), q.pending.Keys);
  }

  /** A permit is refused exactly when 64 responses are outstanding. */
  lemma RefusedIffFull(steps: seq<Step>)
    ensures var q := Run(Start, steps);
            Next(q, Reserves) == q <==> |q.held| + |q.pending| + |q.delivered| == RPC_QUEUE_CAPACITY
  {
    RunGood(Start, steps);
  }

  /** No response is stuck: one still waited for has a party that will send it, and once none is
  left it is ready to be drained. */
  lemma NoResponseStuck(steps: seq<Step>, id: Id)
    requires id in Run(Start, steps).pending
    ensures var q := Run(Start, steps);
            q.pending[id].Waiting? <==>
              id in q.sending || Some(id) in q.channel || q.working == Some(Some(id))
  {
    RunGood(Start, steps);
    assert PlacedOnce(Run(Start, steps), id);
  }
}
