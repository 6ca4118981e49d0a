/** Two stream readers, a forwarder and a cancellation flag: the baseline barrier and the
wake-up protocol, one shared access per step, over any number of reconnection rounds. */
module AccountStream {

  type Payload = nat

  datatype Stream = Playtime | Stats

  datatype Flags = Flags(playtime: bool, stats: bool) {
    predicate Of(i: Stream) {
      if i == Playtime then playtime else stats
    }

    function With(i: Stream): Flags {
      if i == Playtime then this.(playtime := true) else this.(stats := true)
    }
  }

  datatype Message = Connected(who: Stream) | Event(who: Stream, payload: Payload) | Finished(who: Stream)

  datatype Delivery = Baseline | Incremental(who: Stream, payload: Payload)

  const CAPACITY := 16

  const NEITHER := Flags(false, false)
  const BOTH := Flags(true, true)

  /** Where a reader is.  `seen` is the revision it read before looking again. */
  datatype Reader =
    | Connecting
    | SendConnected
    | SignalConnected
    | LoopBaseline | LoopCancelled | LoopStop
    | TakeRevision
    | AgainBaseline(seen: nat) | AgainCancelled(seen: nat) | AgainStop(seen: nat)
    | Waiting(seen: nat)
    | CheckCancelled | CheckStop
    | ReadLine
    | LineCancelled | LineStop
    | HandleLine
    | SendEvent(payload: Payload)
    | SignalEvent
    | SendFinished
    | SignalExit
    | Exited

  datatype Readers = Readers(playtime: Reader, stats: Reader) {
    function Of(i: Stream): Reader {
      if i == Playtime then playtime else stats
    }

    function With(i: Stream, r: Reader): Readers {
      if i == Playtime then this.(playtime := r) else this.(stats := r)
    }
  }

  datatype Forwarder =
    | Top
    | TakeForwardRevision
    | Poll(seen: nat)
    | Asleep(seen: nat)
    | FetchBaseline
    | CheckBaseline
    | DeliverBaseline
    | StoreReady
    | SignalReady
    | CheckEvent(who: Stream, payload: Payload)
    | CheckBarrier(who: Stream, payload: Payload)
    | DeliverEvent(who: Stream, payload: Payload)
    | Returned              // the receiver is about to be dropped
    | SetStop(who: Stream)
    | SignalStop(who: Stream)
    | Joining

  /** One round of the connection and what outlives it: the flag, the revision counter and the
  deliveries of earlier rounds. */
  datatype State = State(
    cancelled: bool, revision: nat,
    queue: seq<Message>, receiving: bool, baselineReady: bool,
    stop: Flags, readers: Readers,
    forwarder: Forwarder, connected: Flags, baselineDelivered: bool,
    log: seq<Delivery>, sent: seq<Delivery>, crossed: bool, rounds: seq<seq<Delivery>>)

  function NewRound(cancelled: bool, revision: nat, rounds: seq<seq<Delivery>>): State {
    State(cancelled, revision, [], true, false, NEITHER, Readers(Connecting, Connecting),
          Top, NEITHER, false, [], [], false, rounds)
  }

  const Initial := NewRound(false, 0, [])

  /** Choices the machine does not make itself: the network's, and the baseline's outcome. */
  datatype Choice = Go | Fail | Arrives(payload: Payload)

  datatype Step =
    | ReaderMoves(who: Stream, choice: Choice)
    | ForwarderMoves(choice: Choice)
    | Cancels
    | Reconnects

  /** What a reader can see of the shared state, and what it can do to it. */
  datatype Seen = Seen(
    cancelled: bool, revision: nat, ready: bool, stop: bool, receiving: bool, room: bool)

  datatype Effect = Nothing | Push(message: Message) | Bump | StopItself

  function SeenBy(s: State, i: Stream): Seen {
    Seen(s.cancelled, s.revision, s.baselineReady, s.stop.Of(i), s.receiving, |s.queue| < CAPACITY)
  }

  /** A blocking send: it waits while the channel is full and fails once nobody receives. */
  function Sending(v: Seen, r: Reader, m: Message, sent: Reader, failed: Reader): (Reader, Effect) {
    if !v.receiving then (failed, if failed.CheckCancelled? then StopItself else Nothing)
    else if v.room then (sent, Push(m)) else (r, Nothing)
  }

  function ReaderMove(v: Seen, i: Stream, r: Reader, choice: Choice): (Reader, Effect) {
    match r
    case Connecting => (if choice.Fail? then SendFinished else SendConnected, Nothing)
    case SendConnected => Sending(v, r, Connected(i), SignalConnected, CheckCancelled)
    case SignalConnected => (LoopBaseline, Bump)
    case LoopBaseline => (if v.ready then CheckCancelled else LoopCancelled, Nothing)
    case LoopCancelled => (if v.cancelled then CheckCancelled else LoopStop, Nothing)
    case LoopStop => (if v.stop then CheckCancelled else TakeRevision, Nothing)
    case TakeRevision => (AgainBaseline(v.revision), Nothing)
    case AgainBaseline(seen) => (if v.ready then CheckCancelled else AgainCancelled(seen), Nothing)
    case AgainCancelled(seen) => (if v.cancelled then CheckCancelled else AgainStop(seen), Nothing)
    case AgainStop(seen) => (if v.stop then CheckCancelled else Waiting(seen), Nothing)
    case Waiting(seen) =>
      (if v.cancelled || v.revision != seen then LoopBaseline else r, Nothing)
    case CheckCancelled => (if v.cancelled then SendFinished else CheckStop, Nothing)
    case CheckStop => (if v.stop then SendFinished else ReadLine, Nothing)
    case ReadLine => (if choice.Fail? then SendFinished else LineCancelled, Nothing)
    case LineCancelled => (if v.cancelled then SendFinished else LineStop, Nothing)
    case LineStop => (if v.stop then SendFinished else HandleLine, Nothing)
    case HandleLine =>
      (if choice.Fail? then SendFinished
       else if choice.Arrives? then SendEvent(choice.payload) else CheckCancelled, Nothing)
    case SendEvent(payload) => Sending(v, r, Event(i, payload), SignalEvent, CheckCancelled)
    case SignalEvent => (CheckCancelled, Bump)
    case SendFinished => Sending(v, r, Finished(i), SignalExit, SignalExit)
    case SignalExit => (Exited, Bump)
    case Exited => (Exited, Nothing)
  }

  function Signal(s: State): State {
    s.(revision := s.revision + 1)
  }

  function EventOf(m: Message): seq<Delivery> {
    if m.Event? then [Incremental(m.who, m.payload)] else []
  }

  function Apply(s: State, i: Stream, r: Reader, effect: Effect): State {
    var t := s.(readers := s.readers.With(i, r));
    match effect
    case Nothing => t
    case Push(m) => t.(queue := s.queue + [m], sent := s.sent + EventOf(m))
    case Bump => Signal(t)
    case StopItself => t.(stop := s.stop.With(i))
  }

  function ReaderStep(s: State, i: Stream, choice: Choice): State {
    var (r, effect) := ReaderMove(SeenBy(s, i), i, s.readers.Of(i), choice);
    Apply(s, i, r, effect)
  }

  /** What the forwarder sees, and what it can do. */
  datatype Glimpse = Glimpse(
    cancelled: bool, revision: nat, queue: seq<Message>, connected: Flags, delivered: bool)

  datatype Deed =
    | Keep
    | Take                      // remove the first message
    | TakeConnected(who: Stream)
    | Deliver(what: Delivery)
    | Announce                  // store the ready flag
    | Notify                    // signal
    | Order(who: Stream)        // store a stop flag
    | Leave                     // drop the receiver
    | Cross                     // the barrier error

  function ForwarderMove(g: Glimpse, f: Forwarder, choice: Choice): (Forwarder, Deed) {
    match f
    case Top => (if g.cancelled then Returned else TakeForwardRevision, Keep)
    case TakeForwardRevision => (Poll(g.revision), Keep)
    case Poll(seen) =>
      if g.queue == [] then (Asleep(seen), Keep)
      else (
        match g.queue[0]
        case Connected(i) =>
          (if g.connected.With(i) == BOTH && !g.delivered then FetchBaseline else Top,
           TakeConnected(i))
        case Event(i, payload) => (CheckEvent(i, payload), Take)
        case Finished(_) => (Returned, Take)
      )
    case Asleep(seen) => (if g.cancelled || g.revision != seen then Top else f, Keep)
    case FetchBaseline => (if choice.Fail? then Returned else CheckBaseline, Keep)
    case CheckBaseline => (if g.cancelled then Returned else DeliverBaseline, Keep)
    case DeliverBaseline => (StoreReady, Deliver(Baseline))
    case StoreReady => (SignalReady, Announce)
    case SignalReady => (Top, Notify)
    case CheckEvent(i, payload) => (if g.cancelled then Returned else CheckBarrier(i, payload), Keep)
    case CheckBarrier(i, payload) =>
      if g.delivered then (DeliverEvent(i, payload), Keep) else (Returned, Cross)
    case DeliverEvent(i, payload) => (Top, Deliver(Incremental(i, payload)))
    case Returned => (SetStop(Playtime), Leave)
    case SetStop(i) => (SignalStop(i), Order(i))
    case SignalStop(i) => (if i == Playtime then SetStop(Stats) else Joining, Notify)
    case Joining => (Joining, Keep)
  }

  function Do(s: State, f: Forwarder, deed: Deed): State {
    var t := s.(forwarder := f);
    match deed
    case Keep => t
    case Take => t.(queue := if s.queue == [] then [] else s.queue[1..])
    case TakeConnected(i) =>
      t.(queue := if s.queue == [] then [] else s.queue[1..], connected := s.connected.With(i))
    case Deliver(what) =>
      t.(log := s.log + [what], baselineDelivered := s.baselineDelivered || what.Baseline?)
    case Announce => t.(baselineReady := true)
    case Notify => Signal(t)
    case Order(i) => t.(stop := s.stop.With(i))
    case Leave => t.(receiving := false)
    case Cross => t.(crossed := true)
  }

  function GlimpseOf(s: State): Glimpse {
    Glimpse(s.cancelled, s.revision, s.queue, s.connected, s.baselineDelivered)
  }

  function ForwarderStep(s: State, choice: Choice): State {
    var (f, deed) := ForwarderMove(GlimpseOf(s), s.forwarder, choice);
    Do(s, f, deed)
  }

  function Next(s: State, step: Step): State {
    match step
    case ReaderMoves(i, choice) => ReaderStep(s, i, choice)
    case ForwarderMoves(choice) => ForwarderStep(s, choice)
    case Cancels => if s.cancelled then s else Signal(s.(cancelled := true))
    case Reconnects =>
      if s.forwarder == Joining && s.readers == Readers(Exited, Exited) && !s.cancelled
      then NewRound(s.cancelled, s.revision, s.rounds + [s.log]) else s
  }

  function Run(s: State, steps: seq<Step>): State
    decreases |steps|
  {
    if steps == [] then s else Run(Next(s, steps[0]), steps[1..])
  }

  // ----- The invariant -------------------------------------------------------------------

  /** The forwarder has not left its loop. */
  predicate Forwarding(f: Forwarder) {
    !f.Returned? && !f.SetStop? && !f.SignalStop? && !f.Joining?
  }

  /** The reader has announced its connection and not yet got past the barrier. */
  predicate AtBarrier(r: Reader) {
    || r.SignalConnected? || r.LoopBaseline? || r.LoopCancelled? || r.LoopStop? || r.TakeRevision?
    || r.AgainBaseline? || r.AgainCancelled? || r.AgainStop? || r.Waiting?
  }

  predicate HasSeen(r: Reader) {
    r.AgainBaseline? || r.AgainCancelled? || r.AgainStop? || r.Waiting?
  }

  /** The reader may send events: it is past the barrier and past the check after it. */
  predicate InStream(r: Reader) {
    || r.ReadLine? || r.LineCancelled? || r.LineStop? || r.HandleLine? || r.SendEvent?
    || r.SignalEvent?
  }

  /** A reader gets past the barrier only for a reason, and into the stream only because the
  baseline is out. */
  ghost predicate BarrierHolds(s: State, i: Stream) {
    var r := s.readers.Of(i);
    && (r.CheckCancelled? ==> s.baselineReady || s.cancelled || s.stop.Of(i))
    && (r.CheckStop? ==> s.baselineReady || s.stop.Of(i))
    && (InStream(r) ==> s.baselineReady)
  }

  /** A reader that has looked since it read the revision misses nothing. */
  ghost predicate ReaderWakes(s: State, i: Stream) {
    var r := s.readers.Of(i);
    && (HasSeen(r) ==> r.seen <= s.revision)
    && ((r.AgainCancelled? || r.AgainStop? || r.Waiting?) && r.seen == s.revision ==>
          s.baselineReady ==> s.forwarder.SignalReady?)
    && ((r.AgainStop? || r.Waiting?) && r.seen == s.revision ==> !s.cancelled)
    && (r.Waiting? && r.seen == s.revision ==> s.stop.Of(i) ==> s.forwarder == SignalStop(i))
  }

  /** A reader's messages are where they should be. */
  predicate AccountedFor(r: Reader, receiving: bool, forwarding: bool, stop: bool,
                         announced: bool, connected: bool, finished: bool)
  {
    && (AtBarrier(r) && receiving ==> announced || connected)
    && (announced || connected ==> !r.Connecting? && !r.SendConnected?)
    && ((r.SignalExit? || r.Exited?) && forwarding ==> finished)
    && (stop ==> !receiving)
  }

  predicate Accounted(s: State, i: Stream) {
    AccountedFor(s.readers.Of(i), s.receiving, Forwarding(s.forwarder), s.stop.Of(i),
                 Connected(i) in s.queue, s.connected.Of(i), Finished(i) in s.queue)
  }

  ghost predicate GoodReader(s: State, i: Stream) {
    BarrierHolds(s, i) && ReaderWakes(s, i) && Accounted(s, i)
  }

  function EventsOf(queue: seq<Message>): seq<Delivery> {
    if queue == [] then []
    else EventOf(queue[0]) + EventsOf(queue[1..])
  }

  /** The event the forwarder has taken from the queue and not yet delivered. */
  function InHand(f: Forwarder): seq<Delivery> {
    match f
    case CheckEvent(i, payload) => [Incremental(i, payload)]
    case CheckBarrier(i, payload) => [Incremental(i, payload)]
    case DeliverEvent(i, payload) => [Incremental(i, payload)]
    case _ => []
  }

  /** Nothing, or one baseline followed only by events. */
  ghost predicate GoodLog(log: seq<Delivery>) {
    log != [] ==> log[0] == Baseline && forall k | 1 <= k < |log| :: log[k].Incremental?
  }

  predicate Fetching(f: Forwarder) {
    f.FetchBaseline? || f.CheckBaseline? || f.DeliverBaseline?
  }

  /** The baseline goes out once, after both streams connected, and is then announced. */
  predicate Phase(f: Forwarder, receiving: bool, ready: bool, delivered: bool, connected: Flags) {
    && (Forwarding(f) || f.Returned? <==> receiving)
    && (ready ==> delivered)
    && (delivered ==> ready || f.StoreReady?)
    && (f.StoreReady? ==> delivered && !ready)
    && (Fetching(f) ==> connected == BOTH && !delivered)
    && (connected == BOTH && Forwarding(f) ==> delivered || Fetching(f))
    && (delivered ==> connected == BOTH)
  }

  predicate BaselinePhase(s: State) {
    Phase(s.forwarder, s.receiving, s.baselineReady, s.baselineDelivered, s.connected)
  }

  /** Events exist only once the baseline is out. */
  ghost predicate EventsBehindBaseline(s: State) {
    && ((exists m | m in s.queue :: m.Event?) ==> s.baselineReady)
    && (InHand(s.forwarder) != [] ==> s.baselineReady)
    && !s.crossed
  }

  ghost predicate ForwarderWakes(s: State) {
    && (s.forwarder.Poll? || s.forwarder.Asleep? ==> s.forwarder.seen <= s.revision)
    && (s.forwarder.Asleep? && s.forwarder.seen == s.revision && s.queue != [] ==>
          Signalling(s.readers.playtime) || Signalling(s.readers.stats))
  }

  ghost predicate GoodForwarder(s: State) {
    BaselinePhase(s) && EventsBehindBaseline(s) && ForwarderWakes(s)
  }

  /** Between a push and its signal. */
  predicate Signalling(r: Reader) {
    r.SignalConnected? || r.SignalEvent? || r.SignalExit?
  }

  function Delivered(log: seq<Delivery>): seq<Delivery> {
    if log == [] then [] else log[1..]
  }

  ghost predicate GoodDeliveries(s: State) {
    && GoodLog(s.log) && (s.log == [] <==> !s.baselineDelivered)
    && |s.queue| <= CAPACITY
    && (Forwarding(s.forwarder) ==>
          Delivered(s.log) + InHand(s.forwarder) + EventsOf(s.queue) == s.sent)
    && Delivered(s.log) <= s.sent
    && (forall k | 0 <= k < |s.rounds| :: GoodLog(s.rounds[k]))
  }

  ghost predicate Good(s: State) {
    GoodReader(s, Playtime) && GoodReader(s, Stats) && GoodForwarder(s) && GoodDeliveries(s)
  }

  // ----- Reader steps --------------------------------------------------------------------

  /** What a reader's next move may be, in terms of what it sees. */
  lemma MoveKinds(v: Seen, i: Stream, r: Reader, choice: Choice)
    ensures var (r', effect) := ReaderMove(v, i, r, choice);
            && (effect.Push? ==> v.receiving && v.room && effect.message.who == i && Signalling(r')
                                 && (effect.message.Event? ==> InStream(r))
                                 && (effect.message.Connected? <==> r.SendConnected?)
                                 && (effect.message.Finished? <==> r.SendFinished?))
            && (effect.StopItself? ==> !v.receiving && r'.CheckCancelled?)
            && (effect.Bump? <==> Signalling(r))
            && (effect.Nothing? && v.receiving ==> !Signalling(r'))
  {
  }

  lemma MoveBarrier(v: Seen, i: Stream, r: Reader, choice: Choice)
    requires r.CheckCancelled? ==> v.ready || v.cancelled || v.stop
    requires r.CheckStop? ==> v.ready || v.stop
    requires InStream(r) ==> v.ready
    ensures var (r', effect) := ReaderMove(v, i, r, choice);
            && (r'.CheckCancelled? ==> v.ready || v.cancelled || v.stop || effect.StopItself?)
            && (r'.CheckStop? ==> v.ready || v.stop)
            && (InStream(r') ==> v.ready)
  {
  }

  /** The wake-up facts of a reader that sees `v`, when `announced` and `told` say that the
  forwarder has yet to signal the baseline or this reader's stop. */
  ghost predicate SeesChanges(v: Seen, r: Reader, announced: bool, told: bool) {
    && (HasSeen(r) ==> r.seen <= v.revision)
    && ((r.AgainCancelled? || r.AgainStop? || r.Waiting?) && r.seen == v.revision ==>
          v.ready ==> announced)
    && ((r.AgainStop? || r.Waiting?) && r.seen == v.revision ==> !v.cancelled)
    && (r.Waiting? && r.seen == v.revision ==> v.stop ==> told)
  }

  lemma MoveWakes(v: Seen, i: Stream, r: Reader, choice: Choice, announced: bool, told: bool)
    requires SeesChanges(v, r, announced, told)
    ensures var (r', effect) := ReaderMove(v, i, r, choice);
            var v' := v.(revision := if effect.Bump? then v.revision + 1 else v.revision,
                         stop := v.stop || effect.StopItself?);
            SeesChanges(v', r', announced, told)
  {
  }

  lemma MoveAccounted(v: Seen, i: Stream, r: Reader, choice: Choice)
    ensures var (r', effect) := ReaderMove(v, i, r, choice);
            && (AtBarrier(r') && v.receiving ==> AtBarrier(r) || effect == Push(Connected(i)))
            && (r'.Connecting? || r'.SendConnected? ==>
                  (r.Connecting? || r.SendConnected?) && effect.Nothing?)
            && ((r'.SignalExit? || r'.Exited?) && v.receiving ==>
                  r.SignalExit? || r.Exited? || effect == Push(Finished(i)))
  {
  }

  lemma MoverGood(s: State, i: Stream, choice: Choice)
    requires Good(s)
    ensures GoodReader(ReaderStep(s, i, choice), i)
  {
    hide ReaderMove, AtBarrier, InStream, Forwarding, EventOf, GoodDeliveries;
    var v, r := SeenBy(s, i), s.readers.Of(i);
    var (r', effect) := ReaderMove(v, i, r, choice);
    MoveKinds(v, i, r, choice);
    MoveBarrier(v, i, r, choice);
    MoveWakes(v, i, r, choice, s.forwarder.SignalReady?, s.forwarder == SignalStop(i));
    MoveAccounted(v, i, r, choice);
    MoverParts(s, i, r', effect);
  }

  /** The three parts of a reader's invariant from what its move guarantees. */
  lemma MoverParts(s: State, i: Stream, r': Reader, effect: Effect)
    requires GoodReader(s, i) && BaselinePhase(s)
    requires r'.CheckCancelled? ==>
               s.baselineReady || s.cancelled || s.stop.Of(i) || effect.StopItself?
    requires r'.CheckStop? ==> s.baselineReady || s.stop.Of(i)
    requires InStream(r') ==> s.baselineReady
    requires var v := SeenBy(s, i);
             SeesChanges(v.(revision := if effect.Bump? then v.revision + 1 else v.revision,
                            stop := v.stop || effect.StopItself?),
                         r', s.forwarder.SignalReady?, s.forwarder == SignalStop(i))
    requires var r := s.readers.Of(i);
             && (AtBarrier(r') && s.receiving ==> AtBarrier(r) || effect == Push(Connected(i)))
             && (r'.Connecting? || r'.SendConnected? ==>
                   (r.Connecting? || r.SendConnected?) && effect.Nothing?)
             && ((r'.SignalExit? || r'.Exited?) && s.receiving ==>
                   r.SignalExit? || r.Exited? || effect == Push(Finished(i)))
    requires effect.Push? ==> effect.message.who == i
    requires effect.StopItself? ==> !s.receiving
    ensures GoodReader(Apply(s, i, r', effect), i)
  {
    hide AtBarrier, InStream, EventOf, SeesChanges, Apply;
    var after := Apply(s, i, r', effect);
    EffectFrame(s, i, r', effect);
    assert BarrierHolds(after, i) by { hide ReaderWakes, Accounted; }
    MoverWakes(s, i, r', effect);
    MoverAccounted(s, i, r', effect);
    hide BarrierHolds, ReaderWakes, Accounted;
  }

  /** What applying an effect leaves alone. */
  lemma EffectFrame(s: State, i: Stream, r': Reader, effect: Effect)
    ensures var after := Apply(s, i, r', effect);
            && after.readers.Of(i) == r' && after.stop.Of(i) == (s.stop.Of(i) || effect.StopItself?)
            && after.baselineReady == s.baselineReady && after.cancelled == s.cancelled
            && after.receiving == s.receiving && after.forwarder == s.forwarder
            && after.connected == s.connected
            && after.revision == (if effect.Bump? then s.revision + 1 else s.revision)
            && after.queue == if effect.Push? then s.queue + [effect.message] else s.queue
  {
  }

  lemma MoverWakes(s: State, i: Stream, r': Reader, effect: Effect)
    requires var v := SeenBy(s, i);
             SeesChanges(v.(revision := if effect.Bump? then v.revision + 1 else v.revision,
                            stop := v.stop || effect.StopItself?),
                         r', s.forwarder.SignalReady?, s.forwarder == SignalStop(i))
    ensures ReaderWakes(Apply(s, i, r', effect), i)
  {
    hide Apply;
    EffectFrame(s, i, r', effect);
  }

  lemma MoverAccounted(s: State, i: Stream, r': Reader, effect: Effect)
    requires Accounted(s, i) && (Forwarding(s.forwarder) ==> s.receiving)
    requires var r := s.readers.Of(i);
             && (AtBarrier(r') && s.receiving ==> AtBarrier(r) || effect == Push(Connected(i)))
             && (r'.Connecting? || r'.SendConnected? ==>
                   (r.Connecting? || r.SendConnected?) && effect.Nothing?)
             && ((r'.SignalExit? || r'.Exited?) && s.receiving ==>
                   r.SignalExit? || r.Exited? || effect == Push(Finished(i)))
    requires effect.Push? ==> effect.message.who == i
    requires effect.StopItself? ==> !s.receiving
    ensures Accounted(Apply(s, i, r', effect), i)
  {
    hide AtBarrier, Apply, Forwarding;
    EffectFrame(s, i, r', effect);
    var after := Apply(s, i, r', effect);
    assert forall m | m in s.queue :: m in after.queue;
    if effect.Push? { assert effect.message in after.queue; }
  }

  function OtherOf(i: Stream): Stream {
    if i == Playtime then Stats else Playtime
  }

  lemma BystanderGood(s: State, i: Stream, r: Reader, effect: Effect)
    requires GoodReader(s, OtherOf(i))
    requires effect.Push? ==> effect.message.who == i
    ensures GoodReader(Apply(s, i, r, effect), OtherOf(i))
  {
    hide Apply, BarrierHolds, ReaderWakes, Accounted;
    var after, j := Apply(s, i, r, effect), OtherOf(i);
    ApplyFrame(s, i, r, effect);
    BystanderBarrier(s, after, j);
    BystanderWakes(s, after, j);
    BystanderAccount(s, after, j, if effect.Push? then [effect.message] else []);
  }

  lemma ApplyFrame(s: State, i: Stream, r: Reader, effect: Effect)
    ensures var after, j := Apply(s, i, r, effect), OtherOf(i);
            && after.readers.Of(j) == s.readers.Of(j) && after.stop.Of(j) == s.stop.Of(j)
            && after.forwarder == s.forwarder && after.receiving == s.receiving
            && after.connected == s.connected && after.baselineReady == s.baselineReady
            && after.cancelled == s.cancelled && s.revision <= after.revision
            && after.queue == s.queue + if effect.Push? then [effect.message] else []
  {
    hide EventOf;
    match effect
    case Push(m) =>
    case _ => assert s.queue + [] == s.queue;
  }

  lemma BystanderBarrier(s: State, after: State, j: Stream)
    requires BarrierHolds(s, j) && after.readers.Of(j) == s.readers.Of(j)
    requires after.stop.Of(j) == s.stop.Of(j)
    requires after.baselineReady == s.baselineReady && after.cancelled == s.cancelled
    ensures BarrierHolds(after, j)
  {
  }

  lemma BystanderAccount(s: State, after: State, j: Stream, pushed: seq<Message>)
    requires Accounted(s, j) && after.readers.Of(j) == s.readers.Of(j)
    requires after.stop.Of(j) == s.stop.Of(j) && after.forwarder == s.forwarder
    requires after.receiving == s.receiving && after.connected == s.connected
    requires after.queue == s.queue + pushed && forall m | m in pushed :: m.who != j
    ensures Accounted(after, j)
  {
    hide AccountedFor, Forwarding;
    assert Connected(j) in after.queue <==> Connected(j) in s.queue;
    assert Finished(j) in after.queue <==> Finished(j) in s.queue;
  }

  /** A signal never makes a sleeping reader's view go stale unnoticed. */
  lemma BystanderWakes(s: State, after: State, j: Stream)
    requires ReaderWakes(s, j) && after.readers.Of(j) == s.readers.Of(j)
    requires after.stop.Of(j) == s.stop.Of(j) && after.forwarder == s.forwarder
    requires after.baselineReady == s.baselineReady && after.cancelled == s.cancelled
    requires s.revision <= after.revision
    ensures ReaderWakes(after, j)
  {
  }

  lemma ReaderKeepsForwarder(s: State, i: Stream, r: Reader, effect: Effect)
    requires GoodForwarder(s) && BarrierHolds(s, i)
    requires effect.Push? ==> Signalling(r) && (effect.message.Event? ==> InStream(s.readers.Of(i)))
    requires effect.Bump? <==> Signalling(s.readers.Of(i))
    ensures GoodForwarder(Apply(s, i, r, effect))
  {
    hide EventOf, Forwarding;
    var after := Apply(s, i, r, effect);
    assert BaselinePhase(after);
    if effect.Push? {
      assert forall m | m in after.queue :: m in s.queue || m == effect.message;
    }
    assert EventsBehindBaseline(after);
    assert ForwarderWakes(after);
  }

  lemma {:induction false} EventsOfSnoc(queue: seq<Message>, m: Message)
    ensures EventsOf(queue + [m]) == EventsOf(queue) + EventOf(m)
  {
    if queue == [] {
      assert queue + [m] == [m];
    } else {
      assert (queue + [m])[1..] == queue[1..] + [m];
      EventsOfSnoc(queue[1..], m);
    }
  }

  lemma ReaderKeepsDeliveries(s: State, i: Stream, r: Reader, effect: Effect)
    requires GoodDeliveries(s) && (effect.Push? ==> |s.queue| < CAPACITY)
    ensures GoodDeliveries(Apply(s, i, r, effect))
  {
    hide EventsOf, GoodLog, EventOf;
    if effect.Push? {
      EventsOfSnoc(s.queue, effect.message);
    }
  }

  lemma ReaderStepGood(s: State, i: Stream, choice: Choice)
    requires Good(s)
    ensures Good(ReaderStep(s, i, choice))
  {
    hide ReaderMove, Apply, InStream, Signalling, GoodDeliveries, GoodForwarder, ReaderWakes,
         Accounted, BarrierHolds;
    var v, r := SeenBy(s, i), s.readers.Of(i);
    var (r', effect) := ReaderMove(v, i, r, choice);
    MoveKinds(v, i, r, choice);
    MoverGood(s, i, choice);
    BystanderGood(s, i, r', effect);
    ReaderKeepsForwarder(s, i, r', effect);
    ReaderKeepsDeliveries(s, i, r', effect);
  }

  // ----- Forwarder steps -----------------------------------------------------------------

  lemma MovePhase(g: Glimpse, f: Forwarder, choice: Choice, receiving: bool, ready: bool)
    requires Phase(f, receiving, ready, g.delivered, g.connected)
    ensures var (f', deed) := ForwarderMove(g, f, choice);
            Phase(f', receiving && !deed.Leave?, ready || deed.Announce?,
                  g.delivered || deed == Deliver(Baseline),
                  if deed.TakeConnected? then g.connected.With(deed.who) else g.connected)
  {
  }

  /** What the forwarder does, in terms of where it is and where it goes. */
  lemma MoveDeeds(g: Glimpse, f: Forwarder, choice: Choice)
    ensures var (f', deed) := ForwarderMove(g, f, choice);
            && (deed.Take? || deed.TakeConnected? ==> g.queue != [])
            && (deed.TakeConnected? <==> f.Poll? && g.queue != [] && g.queue[0].Connected?)
            && (deed.TakeConnected? ==> g.queue[0] == Connected(deed.who))
            && (deed.Take? ==> InHand(f') == EventOf(g.queue[0]))
            && (deed.Take? && g.queue[0].Finished? ==> f'.Returned?)
            && (deed.Take? ==> !g.queue[0].Connected?)
            && (deed.Cross? ==> InHand(f) != [] && !g.delivered)
            && (deed.Announce? <==> f.StoreReady?) && (deed.Announce? ==> f'.SignalReady?)
            && (deed.Notify? <==> f.SignalReady? || f.SignalStop?)
            && (deed.Order? ==> f' == SignalStop(deed.who) && !Forwarding(f) && !f.Returned?)
            && (deed.Leave? <==> f.Returned?)
            && (deed.Deliver? ==> Forwarding(f) && Forwarding(f'))
            && (deed == Deliver(Baseline) <==> f.DeliverBaseline?)
            && (deed.Deliver? && deed.what.Incremental? ==> InHand(f) == [deed.what])
            && (Forwarding(f') ==> Forwarding(f))
  {
  }

  lemma MoveInHand(g: Glimpse, f: Forwarder, choice: Choice)
    ensures var (f', deed) := ForwarderMove(g, f, choice);
            && (Forwarding(f') ==>
                  if deed.Take? then InHand(f) == []
                  else if deed.Deliver? then InHand(f') == []
                  else InHand(f') == InHand(f))
            && (!Forwarding(f') ==> InHand(f') == [])
  {
  }

  lemma MoveSleeps(g: Glimpse, f: Forwarder, choice: Choice)
    requires f.Poll? || f.Asleep? ==> f.seen <= g.revision
    ensures var (f', deed) := ForwarderMove(g, f, choice);
            && (f'.Poll? || f'.Asleep? ==> f'.seen <= g.revision && deed.Keep?)
            && (f'.Asleep? ==> f == f' || g.queue == [])
  {
  }

  lemma ForwarderKeepsReader(s: State, choice: Choice, i: Stream)
    requires Good(s)
    ensures GoodReader(ForwarderStep(s, choice), i)
  {
    hide ForwarderMove, AtBarrier, InStream, EventsOf, GoodDeliveries, Forwarding, InHand, EventOf;
    hide BarrierHolds;
    var (f, deed) := ForwarderMove(GlimpseOf(s), s.forwarder, choice);
    MoveDeeds(GlimpseOf(s), s.forwarder, choice);
    MovePhase(GlimpseOf(s), s.forwarder, choice, s.receiving, s.baselineReady);
    DeedKeepsBarrier(s, f, deed, i);
    DeedKeepsWakes(s, f, deed, i);
    DeedKeepsAccount(s, f, deed, i);
  }

  lemma DeedKeepsBarrier(s: State, f: Forwarder, deed: Deed, i: Stream)
    requires BarrierHolds(s, i)
    ensures BarrierHolds(Do(s, f, deed), i)
  {
    hide InStream;
  }

  lemma DeedKeepsWakes(s: State, f: Forwarder, deed: Deed, i: Stream)
    requires ReaderWakes(s, i)
    requires deed.Announce? ==> f.SignalReady?
    requires deed.Order? ==> f == SignalStop(deed.who)
    requires s.forwarder.SignalReady? || s.forwarder.SignalStop? ==> deed.Notify?
    ensures ReaderWakes(Do(s, f, deed), i)
  {
    hide Do;
    DoFrame(s, f, deed, i);
  }

  /** What a deed changes of what a reader looks at. */
  lemma DoFrame(s: State, f: Forwarder, deed: Deed, i: Stream)
    ensures var after := Do(s, f, deed);
            && after.readers == s.readers && after.forwarder == f && after.cancelled == s.cancelled
            && after.baselineReady == (s.baselineReady || deed.Announce?)
            && after.stop.Of(i) == (s.stop.Of(i) || deed == Order(i))
            && after.revision == if deed.Notify? then s.revision + 1 else s.revision
  {
    match deed
    case Order(who) =>
    case Notify =>
    case Announce =>
    case _ =>
  }

  /** What a deed changes of the barrier's phase. */
  lemma PhaseFrame(s: State, f: Forwarder, deed: Deed)
    ensures var after := Do(s, f, deed);
            && after.forwarder == f
            && after.baselineReady == (s.baselineReady || deed.Announce?)
            && after.receiving == (s.receiving && !deed.Leave?)
            && after.baselineDelivered == (s.baselineDelivered || deed == Deliver(Baseline))
            && after.connected
               == if deed.TakeConnected? then s.connected.With(deed.who) else s.connected
  {
    match deed
    case TakeConnected(who) =>
    case Deliver(what) =>
    case Leave =>
    case _ =>
  }

  lemma DeedKeepsAccount(s: State, f: Forwarder, deed: Deed, i: Stream)
    requires Accounted(s, i)
    requires Forwarding(f) ==> Forwarding(s.forwarder)
    requires deed.Take? || deed.TakeConnected? ==> s.queue != []
    requires deed.TakeConnected? ==> s.queue[0] == Connected(deed.who)
    requires deed.Take? && s.queue[0].Finished? ==> f.Returned?
    requires deed.Take? ==> !s.queue[0].Connected?
    requires deed.Order? ==> !s.receiving
    ensures Accounted(Do(s, f, deed), i)
  {
    hide AtBarrier;
    var after := Do(s, f, deed);
    if deed.Take? || deed.TakeConnected? {
      assert s.queue == [s.queue[0]] + after.queue;
      assert forall m | m in after.queue :: m in s.queue;
      assert forall m | m in s.queue :: m in after.queue || m == s.queue[0];
    }
  }

  lemma ForwarderGood(s: State, choice: Choice)
    requires Good(s)
    ensures GoodForwarder(ForwarderStep(s, choice))
  {
    hide ForwarderMove, AtBarrier, InStream, EventsOf, GoodDeliveries, GoodReader, Forwarding;
    var g := GlimpseOf(s);
    var (f, deed) := ForwarderMove(g, s.forwarder, choice);
    MoveDeeds(g, s.forwarder, choice);
    MovePhase(g, s.forwarder, choice, s.receiving, s.baselineReady);
    MoveInHand(g, s.forwarder, choice);
    MoveSleeps(g, s.forwarder, choice);
    DeedKeepsPhase(s, f, deed);
    DeedKeepsEvents(s, f, deed);
    DeedKeepsSleep(s, f, deed);
  }

  lemma DeedKeepsPhase(s: State, f: Forwarder, deed: Deed)
    requires Phase(f, s.receiving && !deed.Leave?, s.baselineReady || deed.Announce?,
                   s.baselineDelivered || deed == Deliver(Baseline),
                   if deed.TakeConnected? then s.connected.With(deed.who) else s.connected)
    ensures BaselinePhase(Do(s, f, deed))
  {
    hide Phase, Do;
    PhaseFrame(s, f, deed);
  }

  lemma DeedKeepsEvents(s: State, f: Forwarder, deed: Deed)
    requires EventsBehindBaseline(s) && BaselinePhase(s) && !deed.Cross?
    requires deed.Take? ==> s.queue != [] && InHand(f) == EventOf(s.queue[0])
    requires !deed.Take? ==> InHand(f) == [] || InHand(f) == InHand(s.forwarder)
    ensures EventsBehindBaseline(Do(s, f, deed))
  {
    hide InHand, Forwarding;
    var after := Do(s, f, deed);
    assert forall m | m in after.queue :: m in s.queue;
    if deed.Take? {
      assert s.queue[0] in s.queue;
    }
  }

  lemma DeedKeepsSleep(s: State, f: Forwarder, deed: Deed)
    requires ForwarderWakes(s)
    requires f.Poll? || f.Asleep? ==> f.seen <= s.revision && deed.Keep?
    requires f.Asleep? ==> f == s.forwarder || s.queue == []
    ensures ForwarderWakes(Do(s, f, deed))
  {
    hide Signalling;
  }

  lemma ForwarderKeepsDeliveries(s: State, choice: Choice)
    requires Good(s)
    ensures GoodDeliveries(ForwarderStep(s, choice))
  {
    hide ForwarderMove, AtBarrier, InStream, EventsOf, GoodReader, Forwarding, InHand, GoodLog;
    var g := GlimpseOf(s);
    var (f, deed) := ForwarderMove(g, s.forwarder, choice);
    MoveDeeds(g, s.forwarder, choice);
    MoveInHand(g, s.forwarder, choice);
    DeedKeepsDeliveries(s, f, deed);
  }

  lemma DeedKeepsDeliveries(s: State, f: Forwarder, deed: Deed)
    requires GoodDeliveries(s)
    requires Forwarding(f) ==> Forwarding(s.forwarder)
    requires deed.Take? || deed.TakeConnected? ==> s.queue != []
    requires deed.TakeConnected? ==> s.queue[0].Connected?
    requires deed.Take? ==> InHand(f) == EventOf(s.queue[0])
    requires deed.Deliver? ==> Forwarding(s.forwarder) && Forwarding(f)
    requires deed == Deliver(Baseline) ==> !s.baselineDelivered && InHand(s.forwarder) == []
    requires deed.Deliver? && deed.what.Incremental? ==>
               s.baselineDelivered && InHand(s.forwarder) == [deed.what]
    requires Forwarding(f) ==>
               if deed.Take? then InHand(s.forwarder) == []
               else if deed.Deliver? then InHand(f) == []
               else InHand(f) == InHand(s.forwarder)
    ensures GoodDeliveries(Do(s, f, deed))
  {
    hide Forwarding, InHand, GoodLog, EventsOf, EventOf, Delivered;
    if deed.Take? || deed.TakeConnected? {
      FirstEvent(s.queue);
      NotAnEvent(s.queue[0]);
      Regroup(Delivered(s.log), InHand(s.forwarder), EventOf(s.queue[0]), EventsOf(s.queue[1..]));
    } else if deed.Deliver? {
      DeliveryExtends(s.log, deed.what);
      Regroup(Delivered(s.log), InHand(s.forwarder), [], EventsOf(s.queue));
      if deed.what.Incremental? {
        DeliveredPrefix(Delivered(s.log), deed.what, EventsOf(s.queue));
      }
    }
  }

  /** What is delivered, in hand and still queued, grouped another way. */
  lemma Regroup<T>(a: seq<T>, b: seq<T>, c: seq<T>, d: seq<T>)
    ensures a + b + (c + d) == a + (b + c) + d
    ensures a + [] + d == a + d && [] + c == c && b + [] == b && a + [] == a
    ensures b == [] ==> a + b + (c + d) == a + c + d
    ensures c == [] ==> a + b + (c + d) == a + b + d
  {
  }

  lemma DeliveredPrefix<T>(a: seq<T>, x: T, d: seq<T>)
    ensures a + [x] <= a + [x] + d && a + [x] + [] + d == a + [x] + d
  {
  }

  lemma FirstEvent(queue: seq<Message>)
    requires queue != []
    ensures EventsOf(queue) == EventOf(queue[0]) + EventsOf(queue[1..])
  {
  }

  lemma NotAnEvent(m: Message)
    ensures m.Connected? ==> EventOf(m) == []
  {
  }

  lemma DeliveryExtends(log: seq<Delivery>, what: Delivery)
    requires GoodLog(log) && (what.Baseline? <==> log == [])
    ensures GoodLog(log + [what])
    ensures Delivered(log + [what]) == Delivered(log) + if what.Incremental? then [what] else []
  {
  }

  lemma CancelGood(s: State)
    requires Good(s)
    ensures Good(Next(s, Cancels))
  {
    hide EventsOf, GoodLog;
  }

  lemma ReconnectGood(s: State)
    requires Good(s)
    ensures Good(Next(s, Reconnects))
  {
  }

  lemma NextGood(s: State, step: Step)
    requires Good(s)
    ensures Good(Next(s, step))
  {
    hide ReaderStep, ForwarderStep, GoodReader, GoodForwarder, GoodDeliveries;
    match step
    case ReaderMoves(i, choice) => ReaderStepGood(s, i, choice);
    case ForwarderMoves(choice) =>
      ForwarderKeepsReader(s, choice, Playtime);
      ForwarderKeepsReader(s, choice, Stats);
      ForwarderGood(s, choice);
      ForwarderKeepsDeliveries(s, choice);
    case Cancels => CancelGood(s);
    case Reconnects => ReconnectGood(s);
  }

  lemma InitialGood()
    ensures Good(Initial)
  {
  }

  lemma {:induction false} RunGood(s: State, steps: seq<Step>)
    requires Good(s)
    ensures Good(Run(s, steps))
    decreases |steps|
  {
    hide Next, Good;
    if steps != [] {
      NextGood(s, steps[0]);
      RunGood(Next(s, steps[0]), steps[1..]);
    }
  }

  // ----- What the protocol guarantees ----------------------------------------------------

  /** The baseline barrier.  In every interleaving of readers, forwarder and cancellation, each
  round delivers nothing, or one baseline after both streams connected and then only events;
  the "crossed the baseline barrier" error never occurs; and the events delivered are the
  first ones sent, each once and in order. */
  lemma BaselineBarrier(steps: seq<Step>)
    ensures var s := Run(Initial, steps);
            && GoodLog(s.log) && (forall k | 0 <= k < |s.rounds| :: GoodLog(s.rounds[k]))
            && (s.log != [] ==> s.connected == BOTH && s.log[1..] <= s.sent)
            && !s.crossed
  {
    InitialGood();
    RunGood(Initial, steps);
  }

  /** The forwarder really sleeps: its wait would not return now. */
  predicate ForwarderSleeps(s: State) {
    s.forwarder.Asleep? && s.forwarder.seen == s.revision && !s.cancelled
  }

  predicate ReaderSleeps(s: State, i: Stream) {
    s.readers.Of(i).Waiting? && s.readers.Of(i).seen == s.revision && !s.cancelled
  }

  /** No wake-up is lost.  A forwarder that sleeps with a message queued, or a reader that
  sleeps although the baseline is ready or it was told to stop, is about to be woken: the
  party that made the change has yet to signal it. */
  lemma NoLostWakeUp(steps: seq<Step>)
    ensures var s := Run(Initial, steps);
            && (ForwarderSleeps(s) && s.queue != [] ==>
                  Signalling(s.readers.playtime) || Signalling(s.readers.stats))
            && (forall i: Stream | ReaderSleeps(s, i) ::
                  && (s.baselineReady ==> s.forwarder.SignalReady?)
                  && (s.stop.Of(i) ==> s.forwarder == SignalStop(i)))
  {
    InitialGood();
    RunGood(Initial, steps);
  }

  /** The three parties never all sleep: while the forwarder sleeps, some reader is neither
  asleep nor gone. */
  lemma NeverAllAsleep(steps: seq<Step>)
    ensures var s := Run(Initial, steps);
            ForwarderSleeps(s) ==>
              exists i: Stream :: !ReaderSleeps(s, i) && !s.readers.Of(i).Exited?
  {
    InitialGood();
    RunGood(Initial, steps);
    var s := Run(Initial, steps);
    if ForwarderSleeps(s) {
      if s.queue != [] {
        var i := if Signalling(s.readers.playtime) then Playtime else Stats;
        assert !ReaderSleeps(s, i) && !s.readers.Of(i).Exited?;
      } else {
        SleepersDisagree(s);
      }
    }
  }

  lemma SleepersDisagree(s: State)
    requires Good(s) && ForwarderSleeps(s) && s.queue == []
    ensures exists i: Stream :: !ReaderSleeps(s, i) && !s.readers.Of(i).Exited?
  {
    assert GoodReader(s, Playtime) && GoodReader(s, Stats);
    assert !s.readers.Of(Playtime).Exited? && !s.readers.Of(Stats).Exited?;
    if ReaderSleeps(s, Playtime) {
      assert !ReaderSleeps(s, Stats);
    }
  }

  // ----- The join --------------------------------------------------------------------------

  /** The stop flags the forwarder has stored so far on its way out. */
  predicate Leaving(s: State) {
    && (s.forwarder == SignalStop(Playtime) || s.forwarder == SetStop(Stats) ==> s.stop.playtime)
    && (s.forwarder == SignalStop(Stats) || s.forwarder.Joining? ==> s.stop == BOTH)
  }

  lemma LeavingKept(s: State, step: Step)
    requires Leaving(s)
    ensures Leaving(Next(s, step))
  {
    hide ReaderMove, ForwarderMove, Apply, Do;
    match step
    case ReaderMoves(i, choice) =>
      var (r, effect) := ReaderMove(SeenBy(s, i), i, s.readers.Of(i), choice);
      EffectLeaves(s, i, r, effect);
      hide Leaving;
    case ForwarderMoves(choice) =>
      MoveLeaves(GlimpseOf(s), s.forwarder, choice);
      var (f, deed) := ForwarderMove(GlimpseOf(s), s.forwarder, choice);
      DeedLeaves(s, f, deed);
      hide Leaving;
    case Cancels =>
    case Reconnects =>
  }

  lemma EffectLeaves(s: State, i: Stream, r: Reader, effect: Effect)
    requires Leaving(s)
    ensures Leaving(Apply(s, i, r, effect))
  {
  }

  lemma DeedLeaves(s: State, f: Forwarder, deed: Deed)
    requires Leaving(s)
    requires f == SignalStop(Playtime) ==> deed == Order(Playtime)
    requires f == SetStop(Stats) ==> s.forwarder == SignalStop(Playtime)
    requires f == SignalStop(Stats) ==> s.forwarder == SetStop(Stats) && deed == Order(Stats)
    requires f.Joining? ==> s.forwarder == SignalStop(Stats) || s.forwarder.Joining?
    ensures Leaving(Do(s, f, deed))
  {
  }

  /** The forwarder's way out: one order, one signal, per stream. */
  lemma MoveLeaves(g: Glimpse, f: Forwarder, choice: Choice)
    ensures var (f', deed) := ForwarderMove(g, f, choice);
            && (f' == SignalStop(Playtime) ==> deed == Order(Playtime))
            && (f' == SetStop(Stats) ==> f == SignalStop(Playtime))
            && (f' == SignalStop(Stats) ==> f == SetStop(Stats) && deed == Order(Stats))
            && (f'.Joining? ==> f == SignalStop(Stats) || f.Joining?)
            && (f.Joining? ==> f'.Joining? && deed.Keep?)
  {
  }

  lemma {:induction false} RunLeaving(s: State, steps: seq<Step>)
    requires Leaving(s)
    ensures Leaving(Run(s, steps))
    decreases |steps|
  {
    hide Next, Leaving;
    if steps != [] {
      LeavingKept(s, steps[0]);
      RunLeaving(Next(s, steps[0]), steps[1..]);
    }
  }

  /** How many moves of its own a reader that was told to stop may still need. */
  function MovesLeft(r: Reader): nat {
    match r
    case Exited => 0
    case SignalExit => 1
    case SendFinished => 2
    case CheckStop => 3
    case LineStop => 3
    case CheckCancelled => 4
    case LineCancelled => 4
    case SendConnected => 5
    case LoopStop => 5
    case AgainStop(_) => 5
    case ReadLine => 5
    case SendEvent(_) => 5
    case SignalEvent => 5
    case Connecting => 6
    case LoopCancelled => 6
    case AgainCancelled(_) => 6
    case HandleLine => 6
    case LoopBaseline => 7
    case AgainBaseline(_) => 7
    case SignalConnected => 8
    case TakeRevision => 8
    case Waiting(_) => 8
  }

  /** Told to stop, with nobody receiving and its wait over, a reader gets nearer its exit. */
  lemma MoveEnds(v: Seen, i: Stream, r: Reader, choice: Choice)
    requires v.stop && !v.receiving && (r.Waiting? ==> v.cancelled || v.revision != r.seen)
    ensures MovesLeft(ReaderMove(v, i, r, choice).0) < MovesLeft(r) || r.Exited?
    ensures r.Exited? ==> ReaderMove(v, i, r, choice).0.Exited?
  {
  }

  predicate Joins(s: State) {
    s.forwarder.Joining? && s.stop == BOTH && !s.receiving
  }

  /** While the forwarder joins, each step keeps it so, and a reader's own step takes that reader
  nearer its exit; no other step touches it. */
  lemma JoinStep(s: State, step: Step, i: Stream)
    requires Good(s) && Joins(s) && step != Reconnects
    ensures Joins(Next(s, step)) && Next(s, step).rounds == s.rounds
    ensures var left := MovesLeft(s.readers.Of(i));
            MovesLeft(Next(s, step).readers.Of(i))
            <= if step.ReaderMoves? && step.who == i && left > 0 then left - 1 else left
  {
    hide MovesLeft;
    match step
    case ReaderMoves(j, choice) =>
      JoinedReaderWakes(s, j);
      MoveEnds(SeenBy(s, j), j, s.readers.Of(j), choice);
      Gone(s.readers.Of(j));
      hide ReaderMove, Good;
    case ForwarderMoves(choice) =>
      MoveLeaves(GlimpseOf(s), s.forwarder, choice);
      hide ForwarderMove, Good;
    case Cancels =>
  }

  lemma Gone(r: Reader)
    ensures MovesLeft(r) == 0 <==> r.Exited?
  {
  }

  lemma JoinedReaderWakes(s: State, i: Stream)
    requires Good(s) && Joins(s)
    ensures s.readers.Of(i).Waiting? ==> s.readers.Of(i).seen != s.revision
  {
    assert GoodReader(s, i);
  }

  function MovesOf(steps: seq<Step>, i: Stream): nat {
    if steps == [] then 0
    else (if steps[0].ReaderMoves? && steps[0].who == i then 1 else 0) + MovesOf(steps[1..], i)
  }

  lemma {:induction false} JoinRun(s: State, steps: seq<Step>, i: Stream)
    requires Good(s) && Joins(s) && Reconnects !in steps
    ensures Joins(Run(s, steps))
    ensures MovesOf(steps, i) >= MovesLeft(s.readers.Of(i)) ==> Run(s, steps).readers.Of(i).Exited?
    decreases |steps|
  {
    hide Next, Good, Joins;
    if steps != [] {
      NextGood(s, steps[0]);
      JoinStep(s, steps[0], i);
      JoinRun(Next(s, steps[0]), steps[1..], i);
    }
  }

  /** The join cannot hang.  Whenever the forwarder has come to joining its readers, both stop
  flags are set, nobody receives and no reader sleeps; and whatever the other parties do from
  there, a reader that gets eight moves of its own has exited. */
  lemma JoinCannotHang(steps: seq<Step>, more: seq<Step>, i: Stream)
    requires Run(Initial, steps).forwarder.Joining?
    requires Reconnects !in more
    ensures var s := Run(Initial, steps);
            s.stop == BOTH && !s.receiving && !ReaderSleeps(s, i)
    ensures MovesOf(more, i) >= 8 ==>
              Run(Run(Initial, steps), more).readers.Of(i).Exited?
  {
    InitialGood();
    RunGood(Initial, steps);
    RunLeaving(Initial, steps);
    var s := Run(Initial, steps);
    assert GoodReader(s, i);
    JoinRun(s, more, i);
  }
}
