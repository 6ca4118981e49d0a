/** Save conflicts the user settles: conflicts registered per app, dialogs whose buttons are
one-time tokens, a worker that applies a choice, and acknowledgements to the interface. */
module ConflictDialogs {
  import opened Wrappers
  import opened Manifests
  import opened StoreOperations
  import FolderStore

  type Key = (nat, nat)  // account and app
  type Scope = nat
  type Token = nat

  datatype Context = Context(account: nat, identity: nat, connection: nat, window: nat, scope: Scope)

  /** The candidates of a conflict are the manifests at its heads, in the same order. */
  datatype Pending = Pending(
    scope: Scope, identity: Identity, heads: seq<Id>, resolving: bool, armed: bool,
    minimumRevision: nat)

  /** A button of a dialog: a candidate, or `None` to cancel. */
  datatype Binding = Binding(key: Key, head: Option<Id>, context: Context)

  datatype Choice = Choice(
    key: Key, head: Id, token: Token, context: Context, epoch: nat, pending: Pending)

  datatype Ack = Ack(
    context: Context, token: Token, app: nat, accepted: bool, resume: bool, cancel: bool,
    sent: bool)

  datatype State = State(
    epoch: nat, pending: map<Key, Pending>, presented: set<(Key, Context)>,
    bindings: map<Token, Binding>, acks: seq<Ack>, nextToken: Token)

  function DiscardKey(s: State, key: Key): State {
    s.(bindings := map t | t in s.bindings && s.bindings[t].key != key :: s.bindings[t],
       presented := set p | p in s.presented && p.0 != key)
  }

  function RemovePending(s: State, key: Key): State {
    DiscardKey(s.(pending := s.pending - {key}), key)
  }

  // ----- Registering and arming ------------------------------------------------------------

  predicate SameConflict(a: Pending, b: Pending) {
    a.heads == b.heads && a.identity == b.identity && a.scope == b.scope
  }

  function Max(a: nat, b: nat): nat { if a >= b then a else b }

  /** A view was read: a conflict is recorded, or replaced when it is another one, or dropped
  when there is none. */
  function Register(s: State, key: Key, found: Pending, required: bool): State {
    if !required then RemovePending(s, key)
    else if key in s.pending && SameConflict(s.pending[key], found) then
      var minimum := Max(s.pending[key].minimumRevision, found.minimumRevision);
      s.(pending := s.pending[key := s.pending[key].(minimumRevision := minimum)])
    else
      var armed := key in s.pending && s.pending[key].armed;
      DiscardKey(s.(pending := s.pending[key := found.(resolving := false, armed := armed)]), key)
  }

  function Arm(s: State, key: Key, minimum: nat): State {
    if key !in s.pending then s
    else
      var p := s.pending[key];
      s.(pending := s.pending[key := p.(armed := true,
                                        minimumRevision := Max(p.minimumRevision, minimum))])
  }

  // ----- Dialogs -----------------------------------------------------------------------------

  predicate Eligible(s: State, key: Key, context: Context) {
    && key in s.pending && key.0 == context.account
    && s.pending[key].scope == context.scope && s.pending[key].armed && !s.pending[key].resolving
  }

  /** The tokens of one dialog: one per candidate, then one to cancel. */
  function Buttons(first: Token, key: Key, heads: seq<Id>, context: Context): map<Token, Binding> {
    map t: Token | first <= t <= first + |heads| ::
      Binding(key, HeadOf(first, heads, t), context)
  }

  function HeadOf(first: Token, heads: seq<Id>, t: Token): Option<Id> {
    if first <= t < first + |heads| then Some(heads[t - first]) else None
  }

  function Present(s: State, key: Key, context: Context): State
    requires key in s.pending
  {
    var heads := s.pending[key].heads;
    s.(bindings := s.bindings + Buttons(s.nextToken, key, heads, context),
       presented := s.presented + {(key, context)},
       nextToken := s.nextToken + |heads| + 1)
  }

  // ----- Choices and acknowledgements ----------------------------------------------------------

  datatype Submitted = Accepted | Unknown | Stale

  function Submit(s: State, token: Token, context: Context): (State, Submitted, Option<Choice>) {
    if token !in s.bindings then (s, Unknown, None)
    else
      var b := s.bindings[token];
      if b.context != context || b.key.0 != context.account then
        if b.context.account == context.account && b.context.scope != context.scope
        then (RemovePending(s, b.key), Stale, None)
        else (s, Stale, None)
      else if b.head.None? then
        var t := RemovePending(s, b.key);
        (t.(acks := t.acks + [Ack(context, token, b.key.1, true, false, true, false)]),
         Accepted, None)
      else if b.key !in s.pending || s.pending[b.key].resolving || s.pending[b.key].heads == []
      then (s, Stale, None)
      else
        var p := s.pending[b.key].(resolving := true);
        (DiscardKey(s.(pending := s.pending[b.key := p]), b.key), Accepted,
         Some(Choice(b.key, b.head.value, token, context, s.epoch, p)))
  }

  predicate StillCurrent(s: State, c: Choice) {
    && s.epoch == c.epoch && c.key in s.pending
    && s.pending[c.key].heads == c.pending.heads && s.pending[c.key].identity == c.pending.identity
  }

  function FinishChoice(s: State, c: Choice, ok: bool): State {
    if !StillCurrent(s, c) then s
    else if ok then
      var t := RemovePending(s, c.key);
      t.(acks := t.acks + [Ack(c.context, c.token, c.key.1, true, true, false, false)])
    else
      s.(pending := s.pending[c.key := s.pending[c.key].(resolving := false)],
         presented := (set p | p in s.presented && p.0 != c.key),
         acks := s.acks + [Ack(c.context, c.token, c.key.1, false, false, false, false)])
  }

  function CancelPending(s: State): State {
    State(s.epoch + 1, map[], {}, map[], [], s.nextToken)
  }

  function RetryDialog(s: State, context: Context, token: Token): State {
    if token !in s.bindings || s.bindings[token].context != context
       || s.bindings[token].head.Some? then s
    else
      var key := s.bindings[token].key;
      s.(presented := s.presented - {(key, context)},
         bindings := map t | t in s.bindings && (s.bindings[t].key != key
                                                 || s.bindings[t].context != context)
                     :: s.bindings[t])
  }

  function RetryContext(s: State, context: Context): State {
    s.(bindings := map t | t in s.bindings && s.bindings[t].context != context :: s.bindings[t],
       presented := set p | p in s.presented && p.1 != context)
  }

  function SameRuntime(a: Context, b: Context): bool {
    a.(window := 0) == b.(window := 0)
  }

  /** Windows that are gone lose their tokens; their acknowledgements wait for another window. */
  function RetainWindows(s: State, windows: set<nat>): State {
    s.(bindings := map t | t in s.bindings && s.bindings[t].context.window in windows
                   :: s.bindings[t],
       presented := (set p | p in s.presented && p.1.window in windows),
       acks := seq(|s.acks|, i requires 0 <= i < |s.acks| =>
         if s.acks[i].context.window in windows then s.acks[i]
         else s.acks[i].(context := s.acks[i].context.(window := 0), sent := false)))
  }

  /** An acknowledgement without a window goes to the asking one; each is handed out once. */
  function Adopted(ack: Ack, context: Context): Ack {
    if ack.context.window == 0 && SameRuntime(ack.context, context)
    then ack.(context := context) else ack
  }

  function Deliver(ack: Ack, context: Context): Ack {
    var a := Adopted(ack, context);
    if a.context == context then a.(sent := true) else a
  }

  function DeliverAll(acks: seq<Ack>, context: Context): seq<Ack> {
    seq(|acks|, i requires 0 <= i < |acks| => Deliver(acks[i], context))
  }

  function QueueStale(s: State, context: Context, token: Token): State {
    if exists a | a in s.acks :: SameRuntime(a.context, context) && a.token == token then s
    else s.(acks := s.acks + [Ack(context, token, 0, false, false, false, false)])
  }

  function Acknowledge(acks: seq<Ack>, context: Context, token: Token): seq<Ack> {
    if acks == [] then []
    else if acks[0].context == context && acks[0].token == token
      then Acknowledge(acks[1..], context, token)
    else [acks[0]] + Acknowledge(acks[1..], context, token)
  }

  function DeferAck(acks: seq<Ack>, context: Context, token: Token): seq<Ack> {
    if acks == [] then []
    else if acks[0].context == context && acks[0].token == token
      then [acks[0].(sent := false)] + acks[1..]
    else [acks[0]] + DeferAck(acks[1..], context, token)
  }

  // ----- The worker and the store ----------------------------------------------------------------

  /** Apply a choice to the store; the manifest it published, if it did. */
  ghost function ApplyChoice(digest: Digest, d: Directory, c: Choice, now: nat): Option<Manifest> {
    if HeadIds(d) != c.pending.heads || c.head !in c.pending.heads then None
    else
      var begun := BeginOperation(d, [c.head], Some(c.pending.heads), c.pending.minimumRevision);
      if begun.Err? then None
      else
        var files := MergedFiles(begun.value.originalFiles, [], {});
        var what := Decide(digest, d, begun.value, files, c.pending.identity, now);
        if what.Publish? then Some(what.manifest) else None
  }

  /** What the dialog that created a token showed. */
  datatype Shown = Shown(key: Key, scope: Scope, epoch: nat, heads: seq<Id>, head: Option<Id>)

  /** What a choice did to the store. */
  datatype Publication = Publication(before: Directory, after: Directory, manifest: Manifest)

  type Place = (Scope, Key)

  /** The coordinator, the channel to its worker, the worker's finished choice, the stores, and
  the history of dialogs and publications. */
  datatype World = World(
    state: State, choices: seq<Choice>, applied: Option<(Choice, bool)>,
    stores: map<Place, Directory>, shown: map<Token, Shown>, published: map<Token, Publication>)

  const Start := World(State(0, map[], {}, map[], [], 0), [], None, map[], map[], map[])

  datatype Step =
    | Registers(key: Key, found: Pending, required: bool)
    | Arms(key: Key, minimum: nat)
    | Presents(key: Key, context: Context)
    | Submits(token: Token, context: Context)
    | Applies(now: nat)
    | Finishes
    | Cancels
    | RetriesDialog(token: Token, context: Context)
    | RetriesContext(context: Context)
    | Retains(windows: set<nat>)
    | Delivers(context: Context)
    | QueuesStale(token: Token, context: Context)
    | Acknowledges(token: Token, context: Context)
    | DefersAck(token: Token, context: Context)
    | StoreChanges(place: Place, d: Directory)

  function StoreAt(w: World, place: Place): Directory {
    if place in w.stores then w.stores[place] else map[]
  }

  /** The worker takes the oldest choice and applies it. */
  ghost function ApplyStep(digest: Digest, w: World, now: nat): World
    requires w.choices != []
  {
    var c := w.choices[0];
    var place := (c.pending.scope, c.key);
    var d := StoreAt(w, place);
    var m := ApplyChoice(digest, d, c, now);
    var t := w.(choices := w.choices[1..], applied := Some((c, m.Some?)));
    if m.None? then t
    else
      var after := d[digest(m.value) := m.value];
      t.(stores := w.stores[place := after],
         published := w.published[c.token := Publication(d, after, m.value)])
  }

  /** What the buttons of a dialog show. */
  function ShownBy(s: State, key: Key): map<Token, Shown>
    requires key in s.pending
  {
    var p := s.pending[key];
    map t: Token | s.nextToken <= t <= s.nextToken + |p.heads| ::
      Shown(key, p.scope, s.epoch, p.heads, HeadOf(s.nextToken, p.heads, t))
  }

  ghost function Next(digest: Digest, w: World, step: Step): World {
    var s := w.state;
    match step
    case Registers(key, found, required) => w.(state := Register(s, key, found, required))
    case Arms(key, minimum) => w.(state := Arm(s, key, minimum))
    case Presents(key, context) =>
      if Eligible(s, key, context) && (key, context) !in s.presented
      then w.(state := Present(s, key, context), shown := w.shown + ShownBy(s, key)) else w
    case Submits(token, context) =>
      var (t, _, choice) := Submit(s, token, context);
      w.(state := t, choices := if choice.Some? then w.choices + [choice.value] else w.choices)
    case Applies(now) =>
      if w.applied.None? && w.choices != [] then ApplyStep(digest, w, now) else w
    case Finishes =>
      if w.applied.None? then w
      else w.(state := FinishChoice(s, w.applied.value.0, w.applied.value.1), applied := None)
    case Cancels => w.(state := CancelPending(s))
    case RetriesDialog(token, context) => w.(state := RetryDialog(s, context, token))
    case RetriesContext(context) => w.(state := RetryContext(s, context))
    case Retains(windows) => w.(state := RetainWindows(s, windows))
    case Delivers(context) => w.(state := s.(acks := DeliverAll(s.acks, context)))
    case QueuesStale(token, context) => w.(state := QueueStale(s, context, token))
    case Acknowledges(token, context) => w.(state := s.(acks := Acknowledge(s.acks, context, token)))
    case DefersAck(token, context) => w.(state := s.(acks := DeferAck(s.acks, context, token)))
    case StoreChanges(place, d) => w.(stores := w.stores[place := d])
  }

  ghost function Run(digest: Digest, w: World, steps: seq<Step>): World
    decreases |steps|
  {
    if steps == [] then w else Run(digest, Next(digest, w, steps[0]), steps[1..])
  }

  // ----- Invariants ------------------------------------------------------------------------------

  /** A button is for a conflict that is pending and not being resolved, and shows what the
  conflict is now. */
  ghost predicate GoodButton(s: State, b: Binding, shown: Shown) {
    && b.key in s.pending && !s.pending[b.key].resolving
    && b.key.0 == b.context.account && s.pending[b.key].scope == b.context.scope
    && (b.head.Some? ==> b.head.value in s.pending[b.key].heads)
    && shown == Shown(b.key, s.pending[b.key].scope, s.epoch, s.pending[b.key].heads, b.head)
  }

  ghost predicate GoodButtons(s: State, shown: map<Token, Shown>) {
    && (forall t | t in s.bindings :: t in shown && GoodButton(s, s.bindings[t], shown[t]))
    && (forall t | t in shown :: t < s.nextToken)
  }

  /** A choice in flight is for what its token showed. */
  ghost predicate GoodChoice(c: Choice, epoch: nat, shown: map<Token, Shown>) {
    && c.epoch <= epoch && c.token in shown
    && shown[c.token] == Shown(c.key, c.pending.scope, c.epoch, c.pending.heads, Some(c.head))
  }

  /** A publication of a token is over exactly the heads shown, with the chosen one's files. */
  ghost predicate Honours(digest: Digest, p: Publication, shown: Shown) {
    && PublishedOver(digest, p.before, p.after, p.manifest)
    && HeadIds(p.before) == shown.heads && p.manifest.parents == (set id | id in shown.heads)
    && shown.head.Some? && shown.head.value in shown.heads && shown.head.value in p.before
    && p.manifest.files == p.before[shown.head.value].files
  }

  ghost predicate GoodAck(a: Ack, epoch: nat, shown: map<Token, Shown>, published: set<Token>) {
    && (a.resume ==> a.accepted && a.token in published && a.token in shown
                     && shown[a.token].epoch == epoch)
    && (a.cancel ==> a.token in shown && shown[a.token].head.None?)
  }

  ghost predicate GoodAcks(acks: seq<Ack>, epoch: nat, shown: map<Token, Shown>,
                           published: set<Token>) {
    forall a | a in acks :: GoodAck(a, epoch, shown, published)
  }

  ghost predicate GoodChoices(choices: seq<Choice>, epoch: nat, shown: map<Token, Shown>) {
    forall c | c in choices :: GoodChoice(c, epoch, shown)
  }

  ghost predicate GoodPublications(digest: Digest, published: map<Token, Publication>,
                                   shown: map<Token, Shown>) {
    forall t | t in published :: t in shown && Honours(digest, published[t], shown[t])
  }

  /** No token is both a button and chosen, or chosen twice. */
  ghost predicate Spent(bindings: set<Token>, choices: seq<Choice>, applied: Option<(Choice, bool)>,
                        published: set<Token>) {
    && (forall c | c in choices :: c.token !in bindings && c.token !in published)
    && (forall i, j | 0 <= i < j < |choices| :: choices[i].token != choices[j].token)
    && (forall t | t in published :: t !in bindings)
    && (applied.Some? ==>
          && applied.value.0.token !in bindings
          && (forall c | c in choices :: c.token != applied.value.0.token)
          && (applied.value.1 ==> applied.value.0.token in published))
  }

  ghost predicate Good(digest: Digest, w: World) {
    && GoodButtons(w.state, w.shown)
    && GoodChoices(w.choices, w.state.epoch, w.shown)
    && (w.applied.Some? ==> GoodChoice(w.applied.value.0, w.state.epoch, w.shown))
    && GoodPublications(digest, w.published, w.shown)
    && GoodAcks(w.state.acks, w.state.epoch, w.shown, w.published.Keys)
    && Spent(w.state.bindings.Keys, w.choices, w.applied, w.published.Keys)
  }

  // ----- Every step keeps them ---------------------------------------------------------------------

  /** Removing buttons keeps the rest good when the conflicts behind them stay the same. */
  lemma FewerButtons(s: State, t: State, shown: map<Token, Shown>)
    requires GoodButtons(s, shown) && t.epoch == s.epoch && t.nextToken >= s.nextToken
    requires forall x | x in t.bindings ::
               && x in s.bindings && t.bindings[x] == s.bindings[x]
               && (s.bindings[x].key in s.pending ==>
                     && s.bindings[x].key in t.pending
                     && SameConflict(t.pending[s.bindings[x].key], s.pending[s.bindings[x].key])
                     && t.pending[s.bindings[x].key].resolving
                        == s.pending[s.bindings[x].key].resolving)
    ensures GoodButtons(t, shown)
  {
    forall x | x in t.bindings ensures x in shown && GoodButton(t, t.bindings[x], shown[x]) {
      assert GoodButton(s, s.bindings[x], shown[x]);
    }
  }

  /** Steps of the coordinator that only take buttons away, and leave the acknowledgements. */
  lemma TakingAway(digest: Digest, w: World, t: State)
    requires Good(digest, w) && GoodButtons(t, w.shown)
    requires t.epoch == w.state.epoch && t.bindings.Keys <= w.state.bindings.Keys
    requires GoodAcks(t.acks, t.epoch, w.shown, w.published.Keys)
    ensures Good(digest, w.(state := t))
  {
    hide GoodButtons, GoodChoices, GoodPublications, GoodAcks;
  }

  lemma RegistersGood(digest: Digest, w: World, key: Key, found: Pending, required: bool)
    requires Good(digest, w)
    ensures Good(digest, Next(digest, w, Registers(key, found, required)))
  {
    hide Good, GoodButtons, GoodAcks;
    var t := Register(w.state, key, found, required);
    GoodParts(digest, w);
    FewerButtons(w.state, t, w.shown);
    TakingAway(digest, w, t);
  }

  lemma GoodParts(digest: Digest, w: World)
    requires Good(digest, w)
    ensures GoodButtons(w.state, w.shown)
    ensures GoodAcks(w.state.acks, w.state.epoch, w.shown, w.published.Keys)
  {
  }

  lemma ArmsGood(digest: Digest, w: World, key: Key, minimum: nat)
    requires Good(digest, w)
    ensures Good(digest, Next(digest, w, Arms(key, minimum)))
  {
    hide Good, GoodButtons, GoodAcks;
    var t := Arm(w.state, key, minimum);
    GoodParts(digest, w);
    FewerButtons(w.state, t, w.shown);
    TakingAway(digest, w, t);
  }

  lemma TakersGood(digest: Digest, w: World, step: Step)
    requires Good(digest, w)
    requires step.RetriesDialog? || step.RetriesContext?
    ensures Good(digest, Next(digest, w, step))
  {
    hide Good, GoodButtons, GoodAcks;
    var t := Next(digest, w, step).state;
    GoodParts(digest, w);
    FewerButtons(w.state, t, w.shown);
    TakingAway(digest, w, t);
  }

  /** What happens to acknowledgements keeps what they report. */
  ghost predicate Reports(a: Ack, b: Ack) {
    a.token == b.token && a.resume == b.resume && a.cancel == b.cancel && a.accepted == b.accepted
  }

  ghost predicate Handled(acks: seq<Ack>, after: seq<Ack>) {
    forall a | a in after :: a.resume || a.cancel ==> exists b | b in acks :: Reports(a, b)
  }

  lemma HandledGood(acks: seq<Ack>, after: seq<Ack>, epoch: nat, shown: map<Token, Shown>,
                    published: set<Token>)
    requires GoodAcks(acks, epoch, shown, published) && Handled(acks, after)
    ensures GoodAcks(after, epoch, shown, published)
  {
    forall a | a in after ensures GoodAck(a, epoch, shown, published) {
      if a.resume || a.cancel {
        var b :| b in acks && Reports(a, b);
        assert GoodAck(b, epoch, shown, published);
      }
    }
  }

  lemma {:induction false} AcknowledgeKeeps(acks: seq<Ack>, context: Context, token: Token)
    ensures Handled(acks, Acknowledge(acks, context, token))
  {
    if acks != [] {
      AcknowledgeKeeps(acks[1..], context, token);
      forall a | a in Acknowledge(acks, context, token) && (a.resume || a.cancel)
        ensures exists b | b in acks :: Reports(a, b)
      {
        if a == acks[0] { assert Reports(a, acks[0]); }
        else {
          var b :| b in acks[1..] && Reports(a, b);
          assert b in acks;
        }
      }
    }
  }

  lemma {:induction false} DeferKeeps(acks: seq<Ack>, context: Context, token: Token)
    ensures Handled(acks, DeferAck(acks, context, token))
  {
    if acks != [] {
      DeferKeeps(acks[1..], context, token);
      forall a | a in DeferAck(acks, context, token) && (a.resume || a.cancel)
        ensures exists b | b in acks :: Reports(a, b)
      {
        if a in acks { assert Reports(a, a); }
        else if Reports(a, acks[0]) { assert acks[0] in acks; }
        else {
          var b :| b in acks[1..] && Reports(a, b);
          assert b in acks;
        }
      }
    }
  }

  lemma PointwiseKeeps(acks: seq<Ack>, after: seq<Ack>)
    requires |after| == |acks| && forall i | 0 <= i < |acks| :: Reports(after[i], acks[i])
    ensures Handled(acks, after)
  {
    forall a | a in after ensures exists b | b in acks :: Reports(a, b) {
      var i :| 0 <= i < |after| && after[i] == a;
      assert acks[i] in acks;
    }
  }

  lemma StaleKeeps(s: State, context: Context, token: Token)
    ensures Handled(s.acks, QueueStale(s, context, token).acks)
  {
    forall a | a in s.acks ensures Reports(a, a) {}
  }

  lemma AckStepKeeps(digest: Digest, w: World, step: Step)
    requires step.Delivers? || step.QueuesStale? || step.Acknowledges? || step.DefersAck?
             || step.Retains?
    ensures Handled(w.state.acks, Next(digest, w, step).state.acks)
  {
    hide Handled;
    match step
    case Acknowledges(token, context) => AcknowledgeKeeps(w.state.acks, context, token);
    case DefersAck(token, context) => DeferKeeps(w.state.acks, context, token);
    case QueuesStale(token, context) => StaleKeeps(w.state, context, token);
    case Delivers(context) => PointwiseKeeps(w.state.acks, DeliverAll(w.state.acks, context));
    case Retains(windows) => PointwiseKeeps(w.state.acks, RetainWindows(w.state, windows).acks);
    case _ =>
  }

  lemma AcksGood(digest: Digest, w: World, step: Step)
    requires Good(digest, w)
    requires step.Delivers? || step.QueuesStale? || step.Acknowledges? || step.DefersAck?
             || step.Retains?
    ensures Good(digest, Next(digest, w, step))
  {
    hide Good, GoodButtons, GoodAcks, Handled, Acknowledge, DeferAck;
    GoodParts(digest, w);
    var t := Next(digest, w, step).state;
    AckStepKeeps(digest, w, step);
    HandledGood(w.state.acks, t.acks, w.state.epoch, w.shown, w.published.Keys);
    FewerButtons(w.state, t, w.shown);
    TakingAway(digest, w, t);
  }

  lemma PresentsGood(digest: Digest, w: World, key: Key, context: Context)
    requires Good(digest, w)
    ensures Good(digest, Next(digest, w, Presents(key, context)))
  {
    var s := w.state;
    if Eligible(s, key, context) && (key, context) !in s.presented {
      var shown := w.shown + ShownBy(s, key);
      ShownGrows(digest, w, shown);
      NewButtons(s, w.shown, key, context);
    }
  }

  /** New tokens are new: what older ones showed stays. */
  lemma ShownGrows(digest: Digest, w: World, shown: map<Token, Shown>)
    requires Good(digest, w)
    requires forall t | t in w.shown :: t in shown && shown[t] == w.shown[t]
    ensures GoodChoices(w.choices, w.state.epoch, shown)
    ensures w.applied.Some? ==> GoodChoice(w.applied.value.0, w.state.epoch, shown)
    ensures GoodPublications(digest, w.published, shown)
    ensures GoodAcks(w.state.acks, w.state.epoch, shown, w.published.Keys)
  {
    hide Honours;
  }

  lemma NewButtons(s: State, shown: map<Token, Shown>, key: Key, context: Context)
    requires GoodButtons(s, shown) && Eligible(s, key, context)
    ensures GoodButtons(Present(s, key, context), shown + ShownBy(s, key))
  {
    var x := Present(s, key, context);
    var more := shown + ShownBy(s, key);
    forall t | t in x.bindings ensures t in more && GoodButton(x, x.bindings[t], more[t]) {
      if t < s.nextToken { assert GoodButton(s, s.bindings[t], shown[t]); }
    }
  }

  lemma SubmitKeepsButtons(s: State, shown: map<Token, Shown>, token: Token, context: Context)
    requires GoodButtons(s, shown)
    ensures GoodButtons(Submit(s, token, context).0, shown)
  {
    hide GoodButtons;
    FewerButtons(s, Submit(s, token, context).0, shown);
  }

  lemma SubmitKeepsAcks(s: State, shown: map<Token, Shown>, published: set<Token>, token: Token,
                        context: Context)
    requires GoodButtons(s, shown) && GoodAcks(s.acks, s.epoch, shown, published)
    ensures GoodAcks(Submit(s, token, context).0.acks, s.epoch, shown, published)
  {
    if token in s.bindings {
      assert GoodButton(s, s.bindings[token], shown[token]);
      hide GoodButtons;
    }
  }

  lemma SubmitChooses(s: State, shown: map<Token, Shown>, token: Token, context: Context)
    requires GoodButtons(s, shown)
    ensures var (t, _, choice) := Submit(s, token, context);
            && t.epoch == s.epoch && t.bindings.Keys <= s.bindings.Keys
            && (choice.Some? ==> choice.value.token == token && token in s.bindings
                                 && token !in t.bindings
                                 && GoodChoice(choice.value, s.epoch, shown))
  {
    if token in s.bindings {
      assert GoodButton(s, s.bindings[token], shown[token]);
      hide GoodButtons;
    }
  }

  lemma OneMoreSpent(bindings: set<Token>, fewer: set<Token>, choices: seq<Choice>,
                     applied: Option<(Choice, bool)>, published: set<Token>, c: Choice)
    requires Spent(bindings, choices, applied, published)
    requires c.token in bindings && c.token !in fewer && fewer <= bindings
    ensures Spent(fewer, choices + [c], applied, published)
  {
  }

  lemma SubmitsGood(digest: Digest, w: World, token: Token, context: Context)
    requires Good(digest, w)
    ensures Good(digest, Next(digest, w, Submits(token, context)))
  {
    SubmitKeepsButtons(w.state, w.shown, token, context);
    SubmitKeepsAcks(w.state, w.shown, w.published.Keys, token, context);
    SubmitChooses(w.state, w.shown, token, context);
    hide GoodButtons, GoodPublications, GoodAcks, Submit;
    var (t, _, choice) := Submit(w.state, token, context);
    if choice.None? {
      hide Good, Spent;
      TakingAway(digest, w, t);
    } else {
      OneMoreSpent(w.state.bindings.Keys, t.bindings.Keys, w.choices, w.applied,
                   w.published.Keys, choice.value);
      hide Spent, GoodChoice;
    }
  }

  lemma FinishKeepsButtons(s: State, c: Choice, ok: bool, shown: map<Token, Shown>)
    requires GoodButtons(s, shown)
    ensures GoodButtons(FinishChoice(s, c, ok), shown)
  {
    var t := FinishChoice(s, c, ok);
    forall x | x in t.bindings ensures GoodButton(s, s.bindings[x], shown[x]) {
    }
    hide GoodButtons;
    FewerButtons(s, t, shown);
  }

  lemma FinishKeepsAcks(s: State, c: Choice, ok: bool, shown: map<Token, Shown>,
                        published: set<Token>)
    requires GoodAcks(s.acks, s.epoch, shown, published) && GoodChoice(c, s.epoch, shown)
    requires ok ==> c.token in published
    ensures GoodAcks(FinishChoice(s, c, ok).acks, s.epoch, shown, published)
  {
    var t := FinishChoice(s, c, ok);
    forall a | a in t.acks ensures GoodAck(a, s.epoch, shown, published) {
    }
  }

  lemma FinishesGood(digest: Digest, w: World)
    requires Good(digest, w)
    ensures Good(digest, Next(digest, w, Finishes))
  {
    if w.applied.Some? {
      var (c, ok) := w.applied.value;
      var t := FinishChoice(w.state, c, ok);
      FinishKeepsButtons(w.state, c, ok, w.shown);
      FinishKeepsAcks(w.state, c, ok, w.shown, w.published.Keys);
      FinishTakesAway(w.state, c, ok);
      hide Good, GoodButtons, GoodAcks, FinishChoice;
      TakingAway(digest, w, t);
      AppliedCleared(digest, w.(state := t));
    }
  }

  lemma FinishTakesAway(s: State, c: Choice, ok: bool)
    ensures FinishChoice(s, c, ok).bindings.Keys <= s.bindings.Keys
    ensures FinishChoice(s, c, ok).epoch == s.epoch
  {
  }

  lemma AppliedCleared(digest: Digest, w: World)
    requires Good(digest, w)
    ensures Good(digest, w.(applied := None))
  {
    hide GoodButtons, GoodChoices, GoodChoice, GoodPublications, GoodAcks;
  }

  lemma CancelsGood(digest: Digest, w: World)
    requires Good(digest, w)
    ensures Good(digest, Next(digest, w, Cancels))
  {
    hide Honours;
  }

  /** Applying a choice honours what its token showed. */
  lemma ChoiceHonours(digest: Digest, d: Directory, c: Choice, now: nat, epoch: nat,
                      shown: map<Token, Shown>)
    requires GoodChoice(c, epoch, shown) && ApplyChoice(digest, d, c, now).Some?
    ensures var m := ApplyChoice(digest, d, c, now).value;
            Honours(digest, Publication(d, d[digest(m) := m], m), shown[c.token])
  {
    var begun := BeginOperation(d, [c.head], Some(c.pending.heads), c.pending.minimumRevision);
    FolderStore.ResolutionPublishes(
      digest, d, c.pending.heads, c.head, c.pending.minimumRevision, begun.value,
      c.pending.identity, now);
  }

  lemma AppliesGood(digest: Digest, w: World, now: nat)
    requires Good(digest, w)
    ensures Good(digest, Next(digest, w, Applies(now)))
  {
    hide ApplyChoice, Honours;
    if w.applied.None? && w.choices != [] {
      var c := w.choices[0];
      var d := StoreAt(w, (c.pending.scope, c.key));
      assert GoodChoice(c, w.state.epoch, w.shown);
      if ApplyChoice(digest, d, c, now).Some? {
        ChoiceHonours(digest, d, c, now, w.state.epoch, w.shown);
      }
      assert forall x | x in w.choices[1..] :: x in w.choices && x.token != c.token;
    }
  }

  lemma NextGood(digest: Digest, w: World, step: Step)
    requires Good(digest, w)
    ensures Good(digest, Next(digest, w, step))
  {
    hide Good;
    match step
    case Registers(key, found, required) => RegistersGood(digest, w, key, found, required);
    case Arms(key, minimum) => ArmsGood(digest, w, key, minimum);
    case Presents(key, context) => PresentsGood(digest, w, key, context);
    case Submits(token, context) => SubmitsGood(digest, w, token, context);
    case Applies(now) => AppliesGood(digest, w, now);
    case Finishes => FinishesGood(digest, w);
    case Cancels => CancelsGood(digest, w);
    case RetriesDialog(_, _) => TakersGood(digest, w, step);
    case RetriesContext(_) => TakersGood(digest, w, step);
    case StoreChanges(place, d) => StoresApart(digest, w, w.stores[place := d]);
    case _ => AcksGood(digest, w, step);
  }

  lemma StoresApart(digest: Digest, w: World, stores: map<Place, Directory>)
    requires Good(digest, w)
    ensures Good(digest, w.(stores := stores))
  {
    hide GoodButtons, GoodChoices, GoodChoice, GoodPublications, GoodAcks, Spent;
  }

  lemma {:induction false} RunGood(digest: Digest, w: World, steps: seq<Step>)
    requires Good(digest, w)
    ensures Good(digest, Run(digest, w, steps))
    decreases |steps|
  {
    hide Good, Next;
    if steps != [] {
      NextGood(digest, w, steps[0]);
      RunGood(digest, Next(digest, w, steps[0]), steps[1..]);
    }
  }

  // ----- Main results --------------------------------------------------------------------------------

  lemma Reachable(digest: Digest, steps: seq<Step>)
    ensures Good(digest, Run(digest, Start, steps))
  {
    RunGood(digest, Start, steps);
  }

  /** In every reachable state a token belongs to a pending conflict that is not being resolved,
  and it names one of the heads pending now, or cancel. */
  lemma TokensAreCurrent(digest: Digest, steps: seq<Step>, t: Token)
    requires t in Run(digest, Start, steps).state.bindings
    ensures var s := Run(digest, Start, steps).state;
            var b := s.bindings[t];
            && b.key in s.pending && !s.pending[b.key].resolving
            && (b.head.None? || b.head.value in s.pending[b.key].heads)
            && b.key.0 == b.context.account && s.pending[b.key].scope == b.context.scope
  {
    hide Good, Run;
    Reachable(digest, steps);
    var w := Run(digest, Start, steps);
    GoodParts(digest, w);
    assert GoodButton(w.state, w.state.bindings[t], w.shown[t]);
  }

  /** A resume acknowledgement means that a manifest was published over exactly the heads the
  dialog displayed, holding the files of the candidate behind the button, and that no
  cancellation of all conflicts came in between. */
  lemma ResumeMeansPublished(digest: Digest, steps: seq<Step>, a: Ack)
    requires a in Run(digest, Start, steps).state.acks && a.resume
    ensures var w := Run(digest, Start, steps);
            && a.accepted && a.token in w.shown && a.token in w.published
            && Honours(digest, w.published[a.token], w.shown[a.token])
            && w.shown[a.token].epoch == w.state.epoch
  {
    hide Good, Run, Honours;
    Reachable(digest, steps);
    AckIsGood(digest, Run(digest, Start, steps), a);
  }

  /** A cancel acknowledgement comes from the cancel button, which never publishes. */
  lemma CancelNeverPublishes(digest: Digest, steps: seq<Step>, a: Ack)
    requires a in Run(digest, Start, steps).state.acks && a.cancel
    ensures var w := Run(digest, Start, steps);
            a.token in w.shown && w.shown[a.token].head.None? && a.token !in w.published
  {
    hide Good, Run;
    Reachable(digest, steps);
    AckIsGood(digest, Run(digest, Start, steps), a);
  }

  lemma AckIsGood(digest: Digest, w: World, a: Ack)
    requires Good(digest, w) && a in w.state.acks
    ensures GoodAck(a, w.state.epoch, w.shown, w.published.Keys)
    ensures a.token in w.published ==>
              a.token in w.shown && Honours(digest, w.published[a.token], w.shown[a.token])
  {
    hide GoodButtons, GoodChoices, Spent, Honours;
  }

  /** What a token published stays what it published: no token publishes twice. */
  lemma {:induction false} PublishesOnce(digest: Digest, w: World, steps: seq<Step>, t: Token)
    requires Good(digest, w) && t in w.published
    ensures t in Run(digest, w, steps).published
    ensures Run(digest, w, steps).published[t] == w.published[t]
    decreases |steps|
  {
    hide Good, Next;
    if steps != [] {
      PublishedStays(digest, w, steps[0], t);
      NextGood(digest, w, steps[0]);
      PublishesOnce(digest, Next(digest, w, steps[0]), steps[1..], t);
    }
  }

  lemma PublishedStays(digest: Digest, w: World, step: Step, t: Token)
    requires Good(digest, w) && t in w.published
    ensures var x := Next(digest, w, step); t in x.published && x.published[t] == w.published[t]
  {
    assert Spent(w.state.bindings.Keys, w.choices, w.applied, w.published.Keys);
    hide Good;
    if step.Applies? { ApplyPublishesAnew(digest, w, step.now, t); }
    else { OthersDoNotPublish(digest, w, step); }
  }

  lemma ApplyPublishesAnew(digest: Digest, w: World, now: nat, t: Token)
    requires Spent(w.state.bindings.Keys, w.choices, w.applied, w.published.Keys)
    requires t in w.published
    ensures var x := Next(digest, w, Applies(now));
            t in x.published && x.published[t] == w.published[t]
  {
    hide ApplyChoice;
    if w.choices != [] { assert w.choices[0] in w.choices; }
  }

  lemma OthersDoNotPublish(digest: Digest, w: World, step: Step)
    requires !step.Applies?
    ensures Next(digest, w, step).published == w.published
  {
    hide Register, Arm, Present, Submit, FinishChoice, RetainWindows, DeliverAll,
         QueueStale, Acknowledge, DeferAck, RetryDialog, RetryContext, CancelPending, ShownBy;
  }

  // ----- The coordinator as the code runs it ---------------------------------------------------------

  /** A dialog: its conflict, the token of each candidate, and the token to cancel. */
  datatype Dialog = Dialog(key: Key, candidates: seq<Token>, cancel: Token)

  function PresentAll(s: State, keys: seq<Key>, context: Context): (t: State)
    requires forall k | k in keys :: k in s.pending
    ensures t.pending == s.pending && t.acks == s.acks && t.epoch == s.epoch
    ensures t.presented == s.presented + (set k | k in keys :: (k, context))
    ensures t.nextToken >= s.nextToken
  {
    if keys == [] then s
    else
      assert keys == keys[..|keys| - 1] + [keys[|keys| - 1]];
      Present(PresentAll(s, keys[..|keys| - 1], context), keys[|keys| - 1], context)
  }

  function KeysOf(dialogs: seq<Dialog>): (keys: seq<Key>)
    ensures |keys| == |dialogs| && forall i | 0 <= i < |dialogs| :: keys[i] == dialogs[i].key
  {
    seq(|dialogs|, i requires 0 <= i < |dialogs| => dialogs[i].key)
  }

  /** The buttons of a dialog are bound to the candidates in order, and to cancel. */
  ghost predicate Wired(s: State, d: Dialog, context: Context) {
    && d.key in s.pending && |d.candidates| == |s.pending[d.key].heads|
    && (forall i | 0 <= i < |d.candidates| ::
          d.candidates[i] < s.nextToken && d.candidates[i] in s.bindings
          && s.bindings[d.candidates[i]] == Binding(d.key, Some(s.pending[d.key].heads[i]), context))
    && d.cancel < s.nextToken && d.cancel in s.bindings
    && s.bindings[d.cancel] == Binding(d.key, None, context)
  }

  lemma StillWired(s: State, t: State, d: Dialog, context: Context)
    requires Wired(s, d, context) && t.pending == s.pending && t.nextToken >= s.nextToken
    requires forall x | x in s.bindings && x < s.nextToken ::
               x in t.bindings && t.bindings[x] == s.bindings[x]
    ensures Wired(t, d, context)
  {
  }

  function DialogFor(s: State, key: Key): (d: Dialog)
    requires key in s.pending
    ensures d.key == key
  {
    var n := |s.pending[key].heads|;
    Dialog(key, seq(n, i requires 0 <= i < n => s.nextToken + i), s.nextToken + n)
  }

  lemma DialogWired(s: State, key: Key, context: Context)
    requires key in s.pending
    ensures Wired(Present(s, key, context), DialogFor(s, key), context)
  {
    var heads, first, d := s.pending[key].heads, s.nextToken, DialogFor(s, key);
    var buttons := Buttons(first, key, heads, context);
    var t := Present(s, key, context);
    assert t.bindings == s.bindings + buttons && t.pending == s.pending;
    assert d.cancel == first + |heads| && d.cancel in buttons;
    assert buttons[d.cancel] == Binding(key, None, context);
    forall i | 0 <= i < |d.candidates|
      ensures d.candidates[i] < t.nextToken && d.candidates[i] in t.bindings
      ensures t.bindings[d.candidates[i]] == Binding(d.key, Some(heads[i]), context)
    {
      assert d.candidates[i] == first + i && first + i in buttons;
      assert HeadOf(first, heads, first + i) == Some(heads[i]);
    }
    hide Buttons, Present, DialogFor, HeadOf;
  }

  /** The first so many of a dialog's buttons. */
  function FirstButtons(first: Token, key: Key, heads: seq<Id>, context: Context, n: nat)
    : map<Token, Binding>
  {
    map t: Token | first <= t < first + n :: Binding(key, HeadOf(first, heads, t), context)
  }

  lemma NoButtons(first: Token, key: Key, heads: seq<Id>, context: Context)
    ensures FirstButtons(first, key, heads, context, 0) == map[]
  {
  }

  lemma OneMoreButton(first: Token, key: Key, heads: seq<Id>, context: Context, i: nat)
    requires i <= |heads|
    ensures FirstButtons(first, key, heads, context, i + 1)
            == FirstButtons(first, key, heads, context, i)
               [first + i := Binding(key, if i < |heads| then Some(heads[i]) else None, context)]
    ensures i == |heads| ==> FirstButtons(first, key, heads, context, i + 1)
                             == Buttons(first, key, heads, context)
  {
  }

  lemma OneMoreDialog(s: State, shown: seq<Dialog>, key: Key, context: Context)
    requires key in s.pending && forall d | d in shown :: Wired(s, d, context)
    ensures forall d | d in shown + [DialogFor(s, key)] ::
              Wired(Present(s, key, context), d, context)
  {
    DialogWired(s, key, context);
    forall d | d in shown ensures Wired(Present(s, key, context), d, context) {
      StillWired(s, Present(s, key, context), d, context);
    }
  }

  lemma PresentOneMore(s: State, keys: seq<Key>, key: Key, context: Context)
    requires key in s.pending && forall k | k in keys :: k in s.pending
    ensures forall k | k in keys + [key] :: k in s.pending
    ensures PresentAll(s, keys + [key], context) == Present(PresentAll(s, keys, context), key, context)
  {
    assert (keys + [key])[..|keys|] == keys;
  }

  /** The dialogs were presented one after the other, for different conflicts, and their
  buttons are bound. */
  ghost predicate PresentedAs(before: State, after: State, dialogs: seq<Dialog>, context: Context) {
    && (forall i, j | 0 <= i < j < |dialogs| :: dialogs[i].key != dialogs[j].key)
    && (forall k | k in KeysOf(dialogs) :: k in before.pending)
    && after == PresentAll(before, KeysOf(dialogs), context)
    && (forall d | d in dialogs :: Wired(after, d, context))
  }

  lemma NothingPresented(s: State, context: Context)
    ensures PresentedAs(s, s, [], context)
  {
  }

  lemma OneMorePresented(before: State, s: State, dialogs: seq<Dialog>, key: Key, context: Context)
    requires PresentedAs(before, s, dialogs, context) && key in s.pending
    ensures (key, context) in s.presented <==>
              (key, context) in before.presented || key in KeysOf(dialogs)
    ensures (key, context) !in s.presented ==>
              PresentedAs(before, Present(s, key, context), dialogs + [DialogFor(s, key)], context)
    ensures Present(s, key, context).pending == s.pending
  {
    hide Wired, DialogFor;
    if (key, context) !in s.presented {
      OneMoreDialog(s, dialogs, key, context);
      PresentOneMore(before, KeysOf(dialogs), key, context);
      hide Present;
      KeysApart(dialogs, DialogFor(s, key));
    }
  }

  lemma KeysApart(dialogs: seq<Dialog>, d: Dialog)
    requires forall i, j | 0 <= i < j < |dialogs| :: dialogs[i].key != dialogs[j].key
    requires d.key !in KeysOf(dialogs)
    ensures KeysOf(dialogs + [d]) == KeysOf(dialogs) + [d.key]
    ensures forall i, j | 0 <= i < j < |dialogs| + 1 ::
              (dialogs + [d])[i].key != (dialogs + [d])[j].key
  {
    forall i | 0 <= i < |dialogs| ensures dialogs[i].key != d.key {
      assert KeysOf(dialogs)[i] == dialogs[i].key;
    }
  }

  class LocalConflictCoordinator {
    var epoch: nat
    var pending: map<Key, Pending>
    var presented: set<(Key, Context)>
    var bindings: map<Token, Binding>
    var acks: seq<Ack>
    var nextToken: Token

    function Value(): State
      reads this
    {
      State(epoch, pending, presented, bindings, acks, nextToken)
    }

    constructor ()
      ensures Value() == Start.state
    {
      epoch, pending, presented, bindings, acks, nextToken := 0, map[], {}, map[], [], 0;
    }

    method Discard(key: Key)
      modifies this
      ensures Value() == DiscardKey(old(Value()), key)
    {
      bindings := map t | t in bindings && bindings[t].key != key :: bindings[t];
      presented := set p | p in presented && p.0 != key;
    }

    method Registered(key: Key, found: Pending, required: bool)
      modifies this
      ensures Value() == Register(old(Value()), key, found, required)
    {
      if !required {
        pending := pending - {key};
        Discard(key);
        return;
      }
      var armed := key in pending && pending[key].armed;
      if key in pending {
        var current := pending[key];
        current := current.(minimumRevision := Max(current.minimumRevision, found.minimumRevision));
        pending := pending[key := current];
        if SameConflict(current, found) { return; }
      }
      pending := pending[key := found.(resolving := false, armed := armed)];
      assert pending == old(pending)[key := pending[key]];
      Discard(key);
    }

    /** Bind one dialog's tokens, candidate by candidate. */
    method PresentOne(key: Key, context: Context) returns (d: Dialog)
      requires key in pending
      modifies this
      ensures Value() == Present(old(Value()), key, context) && d == DialogFor(old(Value()), key)
    {
      hide FirstButtons, Buttons, HeadOf;
      var heads := pending[key].heads;
      var candidates: seq<Token> := [];
      NoButtons(nextToken, key, heads, context);
      ghost var first := nextToken;
      for i := 0 to |heads|
        invariant nextToken == first + i && |candidates| == i
        invariant forall j | 0 <= j < i :: candidates[j] == first + j
        invariant pending == old(pending) && presented == old(presented)
        invariant acks == old(acks) && epoch == old(epoch)
        invariant bindings == old(bindings) + FirstButtons(first, key, heads, context, i)
      {
        OneMoreButton(first, key, heads, context, i);
        bindings := bindings[nextToken := Binding(key, Some(heads[i]), context)];
        candidates := candidates + [nextToken];
        nextToken := nextToken + 1;
      }
      bindings := bindings[nextToken := Binding(key, None, context)];
      OneMoreButton(first, key, heads, context, |heads|);
      assert bindings == old(bindings) + Buttons(first, key, heads, context);
      d := Dialog(key, candidates, nextToken);
      nextToken := nextToken + 1;
      presented := presented + {(key, context)};
    }

    /** One dialog for every armed conflict of the account not yet presented in the window. */
    method Dialogs(context: Context) returns (dialogs: seq<Dialog>)
      modifies this
      ensures context.account == 0 || context.window == 0 ==>
                dialogs == [] && Value() == old(Value())
      ensures context.account != 0 && context.window != 0 ==>
                forall k :: k in KeysOf(dialogs) <==>
                  Eligible(old(Value()), k, context) && (k, context) !in old(presented)
      ensures PresentedAs(old(Value()), Value(), dialogs, context)
    {
      dialogs := [];
      NothingPresented(Value(), context);
      if context.account == 0 || context.window == 0 { return; }
      var keys := set k | k in pending && Eligible(Value(), k, context);
      ghost var all := keys;
      hide PresentedAs, Present, DialogFor, Eligible;
      while keys != {}
        invariant keys <= all <= pending.Keys
        invariant forall k :: k in KeysOf(dialogs) <==>
                    k in all && k !in keys && (k, context) !in old(presented)
        invariant PresentedAs(old(Value()), Value(), dialogs, context)
        decreases |keys|
      {
        var key :| key in keys;
        keys := keys - {key};
        OneMorePresented(old(Value()), Value(), dialogs, key, context);
        if (key, context) !in presented {
          var d := PresentOne(key, context);
          assert KeysOf(dialogs + [d]) == KeysOf(dialogs) + [key];
          dialogs := dialogs + [d];
        }
      }
    }

    method SubmitChoice(token: Token, context: Context)
      returns (result: Submitted, choice: Option<Choice>)
      modifies this
      ensures (Value(), result, choice) == Submit(old(Value()), token, context)
    {
      choice := None;
      if token !in bindings { return Unknown, None; }
      var b := bindings[token];
      if b.context != context || b.key.0 != context.account {
        if b.context.account == context.account && b.context.scope != context.scope {
          pending := pending - {b.key};
          Discard(b.key);
        }
        return Stale, None;
      }
      if b.head.None? {
        pending := pending - {b.key};
        Discard(b.key);
        acks := acks + [Ack(context, token, b.key.1, true, false, true, false)];
        return Accepted, None;
      }
      if b.key !in pending || pending[b.key].resolving || pending[b.key].heads == [] {
        return Stale, None;
      }
      pending := pending[b.key := pending[b.key].(resolving := true)];
      choice := Some(Choice(b.key, b.head.value, token, context, epoch, pending[b.key]));
      Discard(b.key);
      result := Accepted;
    }

    method Finish(c: Choice, ok: bool)
      modifies this
      ensures Value() == FinishChoice(old(Value()), c, ok)
    {
      if !StillCurrent(Value(), c) { return; }
      if ok {
        pending := pending - {c.key};
        Discard(c.key);
      } else {
        pending := pending[c.key := pending[c.key].(resolving := false)];
        presented := set p | p in presented && p.0 != c.key;
      }
      acks := acks + [Ack(c.context, c.token, c.key.1, ok, ok, false, false)];
    }

    /** Hand out the acknowledgements waiting for a window, each once. */
    method AckDeliveries(context: Context) returns (deliveries: seq<Token>)
      modifies this
      ensures Value() == old(Value()).(acks := DeliverAll(old(acks), context))
      ensures deliveries == Undelivered(old(acks), context)
    {
      deliveries := [];
      for i := 0 to |acks|
        invariant |acks| == |old(acks)|
        invariant Value() == old(Value()).(acks := acks)
        invariant forall j | 0 <= j < i :: acks[j] == Deliver(old(acks)[j], context)
        invariant forall j | i <= j < |acks| :: acks[j] == old(acks)[j]
        invariant deliveries == Undelivered(old(acks)[..i], context)
      {
        assert old(acks)[..i + 1][..i] == old(acks)[..i];
        acks := acks[i := Adopted(acks[i], context)];
        if acks[i].context == context && !acks[i].sent {
          deliveries := deliveries + [acks[i].token];
          acks := acks[i := acks[i].(sent := true)];
        }
      }
      assert old(acks)[..|old(acks)|] == old(acks);
    }
  }

  /** The tokens of the unsent acknowledgements that a window may have, in order. */
  function Undelivered(acks: seq<Ack>, context: Context): seq<Token> {
    if acks == [] then []
    else
      var last := Adopted(acks[|acks| - 1], context);
      Undelivered(acks[..|acks| - 1], context)
      + if last.context == context && !last.sent then [last.token] else []
  }

  /** Nothing is handed out twice. */
  lemma {:induction false} DeliveredOnce(acks: seq<Ack>, context: Context)
    ensures Undelivered(DeliverAll(acks, context), context) == []
  {
    if acks != [] {
      DeliveredOnce(acks[..|acks| - 1], context);
      assert DeliverAll(acks, context)[..|acks| - 1] == DeliverAll(acks[..|acks| - 1], context);
    }
  }
}
