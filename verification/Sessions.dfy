/** Which device is playing: one claim per client, rewritten under a new id whenever it changes,
and override records that list the claims a forced launch superseded. */
module Sessions {
  import opened SortedSets
  import opened Wrappers

  type ClientId = nat
  type ClaimId = nat
  type HeadId = nat

  datatype Status = Active | Suspended

  datatype Claim = Claim(
    client: ClientId, machine: string, status: Status, observedHeads: set<HeadId>, updatedAt: nat,
    nonce: nat)

  type ClaimDigest = Claim -> ClaimId

  ghost predicate CollisionFree(digest: ClaimDigest) {
    forall a, b :: digest(a) == digest(b) ==> a == b
  }

  /** The session directory: claims and override lists by client, and the nonces given out. */
  datatype State = State(
    claims: map<ClientId, Claim>, overrides: map<ClientId, seq<ClaimId>>, nonces: nat)

  const Empty := State(map[], map[], 0)

  function LiveIds(digest: ClaimDigest, claims: map<ClientId, Claim>): set<ClaimId> {
    set c | c in claims :: digest(claims[c])
  }

  /** The live claims that some override record lists. */
  function SupersededLive(overrides: map<ClientId, seq<ClaimId>>, live: set<ClaimId>): set<ClaimId> {
    set id | id in live && exists c | c in overrides :: id in overrides[c]
  }

  function OnlyLive(ids: seq<ClaimId>, live: set<ClaimId>): seq<ClaimId> {
    if ids == [] then []
    else
      var front := OnlyLive(ids[..|ids| - 1], live);
      var last := ids[|ids| - 1];
      if last in live then front + [last] else front
  }

  /** Drop dead claims from every record, and records that list nothing any more. */
  function Reconciled(overrides: map<ClientId, seq<ClaimId>>, live: set<ClaimId>)
    : map<ClientId, seq<ClaimId>>
  {
    map c | c in overrides && OnlyLive(overrides[c], live) != [] :: OnlyLive(overrides[c], live)
  }

  // ----- Operations ----------------------------------------------------------------------

  datatype Launch = Waiting(peers: set<ClientId>) | Started

  function Superseded(digest: ClaimDigest, st: State): set<ClaimId> {
    SupersededLive(st.overrides, LiveIds(digest, st.claims))
  }

  /** The other clients whose claims nobody has superseded. */
  function Pending(digest: ClaimDigest, st: State, client: ClientId): set<ClientId> {
    set c | c in st.claims && c != client && digest(st.claims[c]) !in Superseded(digest, st)
  }

  function Reconcile(digest: ClaimDigest, st: State): State {
    st.(overrides := Reconciled(st.overrides, LiveIds(digest, st.claims)))
  }

  function Supersede(digest: ClaimDigest, st: State, client: ClientId): State {
    var listed := Superseded(digest, st) + LiveIds(digest, st.claims - {client});
    st.(overrides := st.overrides[client := SortedIds(listed)])
  }

  function WriteClaim(st: State, claim: Claim): State {
    st.(claims := st.claims[claim.client := claim.(nonce := st.nonces)], nonces := st.nonces + 1)
  }

  function LaunchSession(
    digest: ClaimDigest, st: State, claim: Claim, ignorePending: bool): (Launch, State)
  {
    var pending := Pending(digest, st, claim.client);
    if pending != {} && !ignorePending then (Waiting(pending), Reconcile(digest, st))
    else
      var claimed := if pending != {} then Supersede(digest, st, claim.client) else st;
      (Started, Reconcile(digest, WriteClaim(claimed, claim.(status := Active))))
  }

  /** Whether suspending or resuming rewrites the claim, and so gives it a new id. */
  predicate Rewrites(claim: Claim, machine: string, status: Status, heads: set<HeadId>) {
    claim.machine != machine || claim.status != status || claim.observedHeads != heads
  }

  function UpdateSession(
    digest: ClaimDigest, st: State, client: ClientId, machine: string, status: Status,
    heads: set<HeadId>, now: nat): Result<State>
  {
    if client !in st.claims then Err(Conflict)
    else
      var claim := st.claims[client];
      var written := if Rewrites(claim, machine, status, heads)
                     then WriteClaim(st, claim.(machine := machine, status := status,
                                                observedHeads := heads, updatedAt := now))
                     else st;
      Ok(Reconcile(digest, written))
  }

  function ExitSession(digest: ClaimDigest, st: State, client: ClientId): State {
    if client !in st.claims then st
    else Reconcile(digest, st.(claims := st.claims - {client}))
  }

  // ----- Reconciliation ------------------------------------------------------------------

  lemma {:induction false} OnlyLiveKeeps(ids: seq<ClaimId>, live: set<ClaimId>)
    ensures forall id :: id in OnlyLive(ids, live) <==> id in ids && id in live
    ensures StrictlySorted(ids) ==> StrictlySorted(OnlyLive(ids, live))
  {
    if ids != [] {
      var front, last := ids[..|ids| - 1], ids[|ids| - 1];
      OnlyLiveKeeps(front, live);
      assert ids == front + [last];
      if StrictlySorted(ids) {
        assert forall id | id in front :: id < last;
        var kept := OnlyLive(front, live);
        assert forall i | 0 <= i < |kept| :: kept[i] in front;
      }
    }
  }

  /** Reconciling never changes which live claims are superseded. */
  lemma ReconcileKeepsSuperseded(overrides: map<ClientId, seq<ClaimId>>, live: set<ClaimId>)
    ensures SupersededLive(Reconciled(overrides, live), live) == SupersededLive(overrides, live)
  {
    var after := Reconciled(overrides, live);
    forall id | id in live
      ensures (exists c | c in after :: id in after[c])
         <==> (exists c | c in overrides :: id in overrides[c])
    {
      if c :| c in overrides && id in overrides[c] {
        OnlyLiveKeeps(overrides[c], live);
        assert id in OnlyLive(overrides[c], live);
        assert id in after[c];
      }
      if c :| c in after && id in after[c] {
        OnlyLiveKeeps(overrides[c], live);
      }
    }
  }

  // ----- What every operation keeps ------------------------------------------------------

  ghost predicate WellKept(digest: ClaimDigest, st: State) {
    && (forall c | c in st.claims :: st.claims[c].client == c && st.claims[c].nonce < st.nonces)
    && (forall c | c in st.overrides ::
          && st.overrides[c] != [] && StrictlySorted(st.overrides[c])
          && forall id | id in st.overrides[c] :: id in LiveIds(digest, st.claims))
  }

  lemma ReconcileWellKept(digest: ClaimDigest, st: State)
    requires forall c | c in st.claims ::
               st.claims[c].client == c && st.claims[c].nonce < st.nonces
    requires forall c | c in st.overrides :: StrictlySorted(st.overrides[c])
    ensures WellKept(digest, Reconcile(digest, st))
    ensures Superseded(digest, Reconcile(digest, st)) == Superseded(digest, st)
  {
    var live := LiveIds(digest, st.claims);
    ReconcileKeepsSuperseded(st.overrides, live);
    forall c | c in st.overrides
      ensures StrictlySorted(OnlyLive(st.overrides[c], live))
      ensures forall id | id in OnlyLive(st.overrides[c], live) :: id in live
    {
      OnlyLiveKeeps(st.overrides[c], live);
    }
  }

  /** A rewritten claim gets an id no live claim has. */
  lemma WrittenIdIsNew(digest: ClaimDigest, st: State, claim: Claim, c: ClientId)
    requires CollisionFree(digest) && WellKept(digest, st) && c in st.claims
    ensures digest(claim.(nonce := st.nonces)) != digest(st.claims[c])
  {
  }

  ghost predicate IsSuperseded(digest: ClaimDigest, st: State, c: ClientId) {
    c in st.claims && digest(st.claims[c]) in Superseded(digest, st)
  }

  lemma SupersededIff(digest: ClaimDigest, st: State, c: ClientId)
    requires c in st.claims
    ensures IsSuperseded(digest, st, c)
       <==> exists o | o in st.overrides :: digest(st.claims[c]) in st.overrides[o]
  {
    assert digest(st.claims[c]) in LiveIds(digest, st.claims);
  }

  /** Writing a claim frees its client from supersession and touches nobody else. */
  lemma WriteFrees(digest: ClaimDigest, st: State, claim: Claim, c: ClientId)
    requires CollisionFree(digest) && WellKept(digest, st)
    ensures !IsSuperseded(digest, WriteClaim(st, claim), claim.client)
    ensures c != claim.client ==>
              (IsSuperseded(digest, WriteClaim(st, claim), c) <==> IsSuperseded(digest, st, c))
  {
    var after := WriteClaim(st, claim);
    var id := digest(claim.(nonce := st.nonces));
    SupersededIff(digest, after, claim.client);
    forall o | o in st.overrides ensures id !in st.overrides[o] {
      forall owner | owner in st.claims ensures id != digest(st.claims[owner]) {
        WrittenIdIsNew(digest, st, claim, owner);
      }
    }
    if c != claim.client && c in st.claims {
      SupersededIff(digest, after, c);
      SupersededIff(digest, st, c);
    }
  }

  lemma SupersedeEffect(digest: ClaimDigest, st: State, client: ClientId)
    requires WellKept(digest, st) && Pending(digest, st, client) != {}
    ensures WellKept(digest, Supersede(digest, st, client))
    ensures forall c | c in st.claims && c != client ::
              IsSuperseded(digest, Supersede(digest, st, client), c)
  {
    var after := Supersede(digest, st, client);
    var listed := Superseded(digest, st) + LiveIds(digest, st.claims - {client});
    assert forall id | id in listed :: id in LiveIds(digest, st.claims);
    forall c | c in st.claims && c != client
      ensures digest(st.claims[c]) in after.overrides[client]
    {
      assert c in st.claims - {client} && (st.claims - {client})[c] == st.claims[c];
    }
    var peer :| peer in Pending(digest, st, client);
    assert digest(st.claims[peer]) in after.overrides[client];
    forall c | c in st.claims && c != client ensures IsSuperseded(digest, after, c) {
      SupersededIff(digest, after, c);
    }
  }

  lemma WriteWellKept(digest: ClaimDigest, st: State, claim: Claim)
    requires WellKept(digest, st)
    ensures WellKept(digest, Reconcile(digest, WriteClaim(st, claim)))
    ensures Superseded(digest, Reconcile(digest, WriteClaim(st, claim)))
            == Superseded(digest, WriteClaim(st, claim))
  {
    ReconcileWellKept(digest, WriteClaim(st, claim));
  }

  /** `client` plays and everybody else's live claim is superseded. */
  ghost predicate Exclusive(digest: ClaimDigest, st: State, client: ClientId) {
    && client in st.claims && !IsSuperseded(digest, st, client)
    && forall c | c in st.claims && c != client :: IsSuperseded(digest, st, c)
  }

  lemma PendingIff(digest: ClaimDigest, st: State, client: ClientId)
    ensures Pending(digest, st, client) != {} <==>
              exists c | c in st.claims && c != client :: !IsSuperseded(digest, st, c)
  {
    var pending := Pending(digest, st, client);
    assert forall c | c in st.claims && c != client ::
        c in pending <==> !IsSuperseded(digest, st, c);
    if pending != {} {
      var c :| c in pending;
      assert c in st.claims && c != client && !IsSuperseded(digest, st, c);
    }
  }

  /** Reconciling changes nobody's standing. */
  lemma ReconcileEffect(digest: ClaimDigest, st: State)
    requires WellKept(digest, st)
    ensures WellKept(digest, Reconcile(digest, st))
    ensures Reconcile(digest, st).claims == st.claims
    ensures forall c :: IsSuperseded(digest, Reconcile(digest, st), c) <==> IsSuperseded(digest, st, c)
  {
    ReconcileWellKept(digest, st);
    hide Superseded, WellKept, Reconciled;
  }

  /** Writing the claim of a client whose peers are all superseded makes it play alone. */
  lemma StartEffect(digest: ClaimDigest, st: State, claim: Claim)
    requires CollisionFree(digest) && WellKept(digest, st)
    requires forall c | c in st.claims && c != claim.client :: IsSuperseded(digest, st, c)
    ensures var after := Reconcile(digest, WriteClaim(st, claim));
            && WellKept(digest, after) && Exclusive(digest, after, claim.client)
            && after.claims.Keys == st.claims.Keys + {claim.client}
            && forall c | c in st.claims && c != claim.client :: after.claims[c] == st.claims[c]
  {
    var written := WriteClaim(st, claim);
    WriteWellKept(digest, st, claim);
    WriteFrees(digest, st, claim, claim.client);
    forall c | c in st.claims && c != claim.client ensures IsSuperseded(digest, written, c) {
      WriteFrees(digest, st, claim, c);
    }
    hide WellKept, CollisionFree, Superseded, Reconciled;
  }

  lemma SupersedeKeepsClaims(digest: ClaimDigest, st: State, client: ClientId)
    ensures Supersede(digest, st, client).claims == st.claims
  {
  }

  /** A launch waits exactly when it does not force its way and some other client's claim is
  not superseded; waiting changes no claim and no supersession.  A launch that starts makes
  the launcher the only client that is not superseded. */
  lemma LaunchEffect(digest: ClaimDigest, st: State, claim: Claim, ignorePending: bool)
    requires CollisionFree(digest) && WellKept(digest, st)
    ensures var (outcome, after) := LaunchSession(digest, st, claim, ignorePending);
            && WellKept(digest, after)
            && (outcome.Waiting? <==>
                  && !ignorePending
                  && exists c | c in st.claims && c != claim.client :: !IsSuperseded(digest, st, c))
            && (outcome.Waiting? ==>
                  && after.claims == st.claims
                  && (forall c :: IsSuperseded(digest, after, c) <==> IsSuperseded(digest, st, c)))
            && (outcome.Started? ==>
                  && Exclusive(digest, after, claim.client)
                  && after.claims.Keys == st.claims.Keys + {claim.client}
                  && forall c | c in st.claims && c != claim.client ::
                       after.claims[c] == st.claims[c])
  {
    hide WellKept, CollisionFree, IsSuperseded, Exclusive, Pending, Supersede, Reconcile, WriteClaim;
    PendingIff(digest, st, claim.client);
    ReconcileEffect(digest, st);
    var active := claim.(status := Active);
    if Pending(digest, st, claim.client) == {} {
      StartEffect(digest, st, active);
    } else {
      SupersedeEffect(digest, st, claim.client);
      SupersedeKeepsClaims(digest, st, claim.client);
      StartEffect(digest, Supersede(digest, st, claim.client), active);
    }
  }

  /** Suspending or resuming fails exactly without a claim.  It keeps every other client's
  supersession, and lifts its own exactly when the claim is rewritten. */
  lemma UpdateEffect(
    digest: ClaimDigest, st: State, client: ClientId, machine: string, status: Status,
    heads: set<HeadId>, now: nat)
    requires CollisionFree(digest) && WellKept(digest, st)
    ensures var r := UpdateSession(digest, st, client, machine, status, heads, now);
            && (r.Ok? <==> client in st.claims)
            && (r.Ok? ==>
                  && WellKept(digest, r.value) && r.value.claims.Keys == st.claims.Keys
                  && (forall c | c != client ::
                        IsSuperseded(digest, r.value, c) <==> IsSuperseded(digest, st, c))
                  && (IsSuperseded(digest, r.value, client) <==>
                        IsSuperseded(digest, st, client)
                        && !Rewrites(st.claims[client], machine, status, heads)))
  {
    if client in st.claims {
      var claim := st.claims[client];
      if Rewrites(claim, machine, status, heads) {
        var written := claim.(machine := machine, status := status, observedHeads := heads,
                              updatedAt := now);
        WriteWellKept(digest, st, written);
        WriteFrees(digest, st, written, client);
        forall c | c != client
          ensures IsSuperseded(digest, WriteClaim(st, written), c) <==> IsSuperseded(digest, st, c)
        {
          WriteFrees(digest, st, written, c);
        }
      } else {
        ReconcileWellKept(digest, st);
      }
    }
  }

  lemma ExitEffect(digest: ClaimDigest, st: State, client: ClientId)
    requires WellKept(digest, st)
    ensures var after := ExitSession(digest, st, client);
            && WellKept(digest, after) && after.claims == st.claims - {client}
            && (forall c | c != client ::
                  IsSuperseded(digest, after, c) <==> IsSuperseded(digest, st, c))
  {
    if client in st.claims {
      var gone := st.(claims := st.claims - {client});
      ReconcileWellKept(digest, gone);
      forall c | c != client && c in st.claims
        ensures IsSuperseded(digest, gone, c) <==> IsSuperseded(digest, st, c)
      {
        SupersededIff(digest, gone, c);
        SupersededIff(digest, st, c);
      }
    } else {
      assert st.claims - {client} == st.claims;
    }
  }

  // ----- Every run -----------------------------------------------------------------------

  datatype Event =
    | Launching(claim: Claim, ignorePending: bool)
    | Updating(client: ClientId, machine: string, status: Status, heads: set<HeadId>, now: nat)
    | Exiting(client: ClientId)

  function Next(digest: ClaimDigest, st: State, e: Event): State {
    match e
    case Launching(claim, ignorePending) => LaunchSession(digest, st, claim, ignorePending).1
    case Updating(client, machine, status, heads, now) =>
      var r := UpdateSession(digest, st, client, machine, status, heads, now);
      if r.Ok? then r.value else st
    case Exiting(client) => ExitSession(digest, st, client)
  }

  function After(digest: ClaimDigest, st: State, events: seq<Event>): State
    decreases |events|
  {
    if events == [] then st else After(digest, Next(digest, st, events[0]), events[1..])
  }

  lemma NextWellKept(digest: ClaimDigest, st: State, e: Event)
    requires CollisionFree(digest) && WellKept(digest, st)
    ensures WellKept(digest, Next(digest, st, e))
  {
    match e
    case Launching(claim, ignorePending) => LaunchEffect(digest, st, claim, ignorePending);
    case Updating(client, machine, status, heads, now) =>
      UpdateEffect(digest, st, client, machine, status, heads, now);
    case Exiting(client) => ExitEffect(digest, st, client);
  }

  /** In every run, override records stay non-empty, sorted, and about live claims only. */
  lemma {:induction false} RunWellKept(digest: ClaimDigest, st: State, events: seq<Event>)
    requires CollisionFree(digest) && WellKept(digest, st)
    ensures WellKept(digest, After(digest, st, events))
    decreases |events|
  {
    if events != [] {
      NextWellKept(digest, st, events[0]);
      RunWellKept(digest, Next(digest, st, events[0]), events[1..]);
    }
  }

  /** Whether an event takes the exclusive right to play away from `client`. */
  predicate Displaces(st: State, e: Event, client: ClientId) {
    match e
    case Launching(claim, ignorePending) => claim.client != client && ignorePending
    case Updating(other, machine, status, heads, _) =>
      other != client && other in st.claims
      && Rewrites(st.claims[other], machine, status, heads)
    case Exiting(other) => other == client
  }

  /** The exclusive right to play survives an event exactly unless another client forces a
  launch, another client rewrites its superseded claim, or the holder exits. */
  lemma ExclusiveKeptIff(digest: ClaimDigest, st: State, e: Event, client: ClientId)
    requires CollisionFree(digest) && WellKept(digest, st) && Exclusive(digest, st, client)
    ensures Exclusive(digest, Next(digest, st, e), client) <==> !Displaces(st, e, client)
  {
    hide LaunchSession, UpdateSession, ExitSession, CollisionFree, IsSuperseded, WellKept, Rewrites;
    match e
    case Launching(claim, ignorePending) =>
      LaunchEffect(digest, st, claim, ignorePending);
      if claim.client != client && !ignorePending {
        assert client in st.claims && client != claim.client && !IsSuperseded(digest, st, client);
      }
    case Updating(other, machine, status, heads, now) =>
      UpdateEffect(digest, st, other, machine, status, heads, now);
    case Exiting(other) =>
      ExitEffect(digest, st, other);
  }

  /** Once a client has launched, it keeps playing alone for as long as no event displaces it. */
  lemma {:induction false} ExclusiveWhileUndisturbed(
    digest: ClaimDigest, st: State, events: seq<Event>, client: ClientId)
    requires CollisionFree(digest) && WellKept(digest, st) && Exclusive(digest, st, client)
    requires forall i | 0 <= i < |events| ::
               !Displaces(After(digest, st, events[..i]), events[i], client)
    ensures Exclusive(digest, After(digest, st, events), client)
    decreases |events|
  {
    hide Next, CollisionFree, WellKept, Exclusive, Displaces;
    if events != [] {
      assert !Displaces(After(digest, st, events[..0]), events[0], client);
      assert events[..0] == [];
      ExclusiveKeptIff(digest, st, events[0], client);
      NextWellKept(digest, st, events[0]);
      var rest := events[1..];
      forall i | 0 <= i < |rest|
        ensures !Displaces(After(digest, Next(digest, st, events[0]), rest[..i]), rest[i], client)
      {
        assert events[..i + 1][1..] == rest[..i];
        assert rest[i] == events[i + 1];
      }
      ExclusiveWhileUndisturbed(digest, Next(digest, st, events[0]), rest, client);
    }
  }

  /** Two clients play and neither is superseded. */
  ghost predicate BothPlay(digest: ClaimDigest, st: State) {
    && 1 in st.claims && 2 in st.claims
    && !IsSuperseded(digest, st, 1) && !IsSuperseded(digest, st, 2)
  }

  /** A superseded client that merely suspends gets its claim back: two clients then play
  without either being superseded. */
  lemma SuspendRevives(digest: ClaimDigest) returns (events: seq<Event>)
    requires CollisionFree(digest)
    ensures BothPlay(digest, After(digest, Empty, events))
  {
    var one, two := Claim(1, "deck", Active, {}, 1, 0), Claim(2, "desk", Active, {}, 1, 0);
    var e, f := Launching(one, false), Launching(two, true);
    var b := Next(digest, Next(digest, Empty, e), f);
    hide Next, After, CollisionFree, WellKept, Exclusive, BothPlay;
    SecondPlays(digest, one, two);
    var g := Waking(digest, b);
    events := [e, f, g];
    AfterThree(digest, Empty, events);
  }

  /** A forced launch supersedes the first client. */
  lemma SecondPlays(digest: ClaimDigest, one: Claim, two: Claim)
    requires CollisionFree(digest) && one.client == 1 && two.client == 2
    ensures var b := Next(digest, Next(digest, Empty, Launching(one, false)), Launching(two, true));
            WellKept(digest, b) && 1 in b.claims && Exclusive(digest, b, 2)
  {
    hide LaunchSession, CollisionFree, Exclusive;
    assert WellKept(digest, Empty);
    hide WellKept, IsSuperseded;
    LaunchEffect(digest, Empty, one, false);
    LaunchEffect(digest, Next(digest, Empty, Launching(one, false)), two, true);
  }

  /** Rewriting the first client's claim lets both play. */
  lemma Waking(digest: ClaimDigest, b: State) returns (e: Event)
    requires CollisionFree(digest) && WellKept(digest, b) && 1 in b.claims && Exclusive(digest, b, 2)
    ensures BothPlay(digest, Next(digest, b, e))
  {
    hide UpdateSession, CollisionFree, WellKept, IsSuperseded;
    var status := if b.claims[1].status == Active then Suspended else Active;
    e := Updating(1, "deck", status, {}, 2);
    UpdateEffect(digest, b, 1, "deck", status, {}, 2);
  }

  lemma AfterThree(digest: ClaimDigest, st: State, events: seq<Event>)
    requires |events| == 3
    ensures After(digest, st, events)
            == Next(digest, Next(digest, Next(digest, st, events[0]), events[1]), events[2])
  {
    hide Next;
    var x := Next(digest, st, events[0]);
    var y := Next(digest, x, events[1]);
    assert events[1..][1..] == events[2..] && events[2..][1..] == [];
    assert After(digest, y, events[2..]) == Next(digest, y, events[2]);
    assert After(digest, x, events[1..]) == After(digest, y, events[2..]);
  }

  // ----- The directory changed in place --------------------------------------------------

  class SessionDirectory {
    const digest: ClaimDigest
    var claims: map<ClientId, Claim>
    var overrides: map<ClientId, seq<ClaimId>>
    var nonces: nat

    constructor (digest: ClaimDigest)
      ensures this.digest == digest && Value() == Empty
    {
      this.digest := digest;
      claims, overrides, nonces := map[], map[], 0;
    }

    function Value(): State
      reads this
    {
      State(claims, overrides, nonces)
    }

    /** Visit every record once: drop it, rewrite it, or leave it. */
    method ReconcileOverrides(live: set<ClaimId>) returns (superseded: set<ClaimId>)
      modifies this`overrides
      ensures overrides == Reconciled(old(overrides), live)
      ensures superseded == SupersededLive(old(overrides), live)
    {
      superseded := {};
      var left := overrides.Keys;
      ghost var before := overrides;
      while left != {}
        invariant left <= before.Keys && left <= overrides.Keys <= before.Keys
        invariant forall c | c in left :: overrides[c] == before[c]
        invariant forall c | c in before && c !in left ::
                    var kept := OnlyLive(before[c], live);
                    if kept == [] then c !in overrides else c in overrides && overrides[c] == kept
        invariant forall id ::
                    id in superseded <==>
                    id in live && exists c | c in before && c !in left :: id in before[c]
      {
        var c :| c in left;
        var retained := OnlyLive(overrides[c], live);
        OnlyLiveKeeps(overrides[c], live);
        if retained == [] {
          overrides := overrides - {c};
        } else {
          if retained != overrides[c] { overrides := overrides[c := retained]; }
          superseded := superseded + set id | id in retained;
        }
        left := left - {c};
      }
    }

    method Launch(claim: Claim, ignorePending: bool) returns (r: Launch)
      modifies this
      ensures (r, Value()) == LaunchSession(digest, old(Value()), claim, ignorePending)
    {
      var live := LiveIds(digest, claims);
      var superseded := SupersededLive(overrides, live);
      var pending := set c | c in claims && c != claim.client && digest(claims[c]) !in superseded;
      if pending != {} && !ignorePending {
        var _ := ReconcileOverrides(live);
        return Waiting(pending);
      }
      if pending != {} {
        var listed := SortedIds(superseded + LiveIds(digest, claims - {claim.client}));
        overrides := overrides[claim.client := listed];
      }
      claims := claims[claim.client := claim.(status := Active, nonce := nonces)];
      nonces := nonces + 1;
      var _ := ReconcileOverrides(LiveIds(digest, claims));
      return Started;
    }

    method Update(client: ClientId, machine: string, status: Status, heads: set<HeadId>, now: nat)
      returns (r: Result<()>)
      modifies this
      ensures var spec := UpdateSession(digest, old(Value()), client, machine, status, heads, now);
              if spec.Ok? then r.Ok? && Value() == spec.value
              else r == Err(spec.error) && Value() == old(Value())
    {
      if client !in claims { return Err(Conflict); }
      var claim := claims[client];
      if Rewrites(claim, machine, status, heads) {
        claims := claims[claim.client := claim.(machine := machine, status := status,
                                     observedHeads := heads, updatedAt := now, nonce := nonces)];
        nonces := nonces + 1;
      }
      var _ := ReconcileOverrides(LiveIds(digest, claims));
      return Ok(());
    }

    method Exit(client: ClientId)
      modifies this
      ensures Value() == ExitSession(digest, old(Value()), client)
    {
      if client !in claims { return; }
      claims := claims - {client};
      var _ := ReconcileOverrides(LiveIds(digest, claims));
    }
  }
}
