/** The browser's local database and the meaning of each of its transactions
    (web/sync-storage.js, web/workspace-transaction.js, web/workspace-core.js). A transaction
    reads everything first and then either commits a whole new state or aborts and changes
    nothing; here each one is a function from a state to a `Tx`. The plans that the WASM Core
    computes inside a transaction are arguments. */
module ClientStore {
  import opened Wire
  import Clock = ClockSamples

  type Queues = map<Key, Operation>

  /** The request body kept with a claim, in parsed form. */
  datatype Body = Body(deviceId: Option<string>, lastRevision: int, sent: Batch)

  /** A saved outgoing sync request. Older versions stored claims without ID or body. */
  datatype Claim = Claim(
    claimId: Option<string>, sent: Batch, owner: Option<NonEmpty>, retiredAt: int, body: Option<Body>)

  datatype Snapshot = Snapshot(owner: Option<NonEmpty>, revision: int, content: string)

  datatype Gate = Gate(token: NonEmpty, acquiredAt: int, expiresAt: int, accountOwner: Option<NonEmpty>)

  datatype Payload = Payload(
    requestId: string, deviceId: string, expectedRevision: int, strategy: Strategy, ops: Batch, autoStartPresent: bool)

  datatype DeliveryState = NeverSent | PossiblyDelivered

  /** A captured bootstrap resolution. `source` is absent in records of older versions. */
  datatype Resolution = Resolution(
    userId: NonEmpty, payload: Payload, queued: set<Key>, state: DeliveryState, gateToken: NonEmpty,
    source: Option<Option<NonEmpty>>)

  datatype Db = Db(
    queues: Queues,
    proof: set<Key>,
    outgoing: Option<Claim>,
    snapshot: Option<Snapshot>,
    gate: Option<Gate>,
    resolution: Option<Resolution>,
    deviceId: Option<string>,
    nextDomain: Domain,
    clock: Option<Clock.Sample>)

  datatype StoreError =
    | AccountOwnership | BootstrapGate | DisplayContext | InvalidRequest | CoreRejected | DuplicateKey
    | ResolutionLimit | ClockRange

  datatype Tx<+T> = Commit(db: Db, value: T) | Abort(error: StoreError)
  {
    /** The database after the transaction, given the database before it. */
    function After(before: Db): Db {
      if Commit? then db else before
    }
  }

  /** What the Core answered. */
  datatype CoreReply<+T> = Noop | Planned(plan: T) | Rejected

  // ---------------------------------------------------------------- queues and proof

  /** Object stores are keyed by the record's own ID. */
  predicate KeyPath(queues: Queues) {
    forall k :: k in queues ==> queues[k].id == k.id
  }

  /** Puts records one after another into one store; a later record wins. */
  function PutItems(queues: Queues, d: Domain, items: seq<Operation>): Queues
    decreases |items|
  {
    if items == [] then queues
    else var last := items[|items| - 1]; PutItems(queues, d, items[..|items| - 1])[Key(d, last.id) := last]
  }

  function PutDomains(queues: Queues, b: Batch, n: nat): Queues
    requires n <= |DOMAINS|
  {
    if n == 0 then queues else PutItems(PutDomains(queues, b, n - 1), DOMAINS[n - 1], b.Of(DOMAINS[n - 1]))
  }

  function PutBatch(queues: Queues, b: Batch): Queues {
    PutDomains(queues, b, |DOMAINS|)
  }

  lemma {:induction false} PutItemsMeaning(queues: Queues, d: Domain, items: seq<Operation>, k: Key)
    ensures k in PutItems(queues, d, items) <==>
            k in queues || (k.domain == d && exists i :: 0 <= i < |items| && items[i].id == k.id)
    ensures k in queues && (k.domain != d || forall i :: 0 <= i < |items| ==> items[i].id != k.id)
            ==> k in PutItems(queues, d, items) && PutItems(queues, d, items)[k] == queues[k]
    decreases |items|
  {
    if items != [] {
      PutItemsMeaning(queues, d, items[..|items| - 1], k);
      if k.domain == d && exists i :: 0 <= i < |items| && items[i].id == k.id {
        var i :| 0 <= i < |items| && items[i].id == k.id;
        assert i < |items| - 1 ==> items[..|items| - 1][i].id == k.id;
      }
    }
  }

  lemma {:induction false} PutItemsKeyPath(queues: Queues, d: Domain, items: seq<Operation>)
    requires KeyPath(queues)
    ensures KeyPath(PutItems(queues, d, items))
    decreases |items|
  {
    if items != [] { PutItemsKeyPath(queues, d, items[..|items| - 1]); }
  }

  lemma {:induction false} PutDomainsMeaning(queues: Queues, b: Batch, n: nat, k: Key)
    requires n <= |DOMAINS|
    ensures k in PutDomains(queues, b, n) <==> k in queues || (k.domain in DOMAINS[..n] && k in BatchKeys(b))
    ensures k in queues && k !in BatchKeys(b) ==>
              k in PutDomains(queues, b, n) && PutDomains(queues, b, n)[k] == queues[k]
  {
    if n > 0 {
      hide PutItems;
      PutDomainsMeaning(queues, b, n - 1, k);
      PutItemsMeaning(PutDomains(queues, b, n - 1), DOMAINS[n - 1], b.Of(DOMAINS[n - 1]), k);
      OneMoreDomain(n - 1, k.domain);
    }
  }

  lemma OneMoreDomain(n: nat, d: Domain)
    requires n < |DOMAINS|
    ensures d in DOMAINS[..n + 1] <==> d in DOMAINS[..n] || d == DOMAINS[n]
  {
    assert DOMAINS[..n + 1] == DOMAINS[..n] + [DOMAINS[n]];
  }

  lemma {:induction false} PutDomainsKeyPath(queues: Queues, b: Batch, n: nat)
    requires n <= |DOMAINS| && KeyPath(queues)
    ensures KeyPath(PutDomains(queues, b, n))
  {
    if n > 0 {
      hide PutItems, KeyPath;
      PutDomainsKeyPath(queues, b, n - 1);
      PutItemsKeyPath(PutDomains(queues, b, n - 1), DOMAINS[n - 1], b.Of(DOMAINS[n - 1]));
    }
  }

  /** A batch of puts adds exactly its own keys and leaves every other record as it was. */
  lemma PutBatchMeaning(queues: Queues, b: Batch)
    ensures PutBatch(queues, b).Keys == queues.Keys + BatchKeys(b)
    ensures forall k :: k in queues && k !in BatchKeys(b) ==> PutBatch(queues, b)[k] == queues[k]
    ensures KeyPath(queues) ==> KeyPath(PutBatch(queues, b))
  {
    forall k: Key
      ensures k in PutBatch(queues, b) <==> k in queues.Keys + BatchKeys(b)
      ensures k in queues && k !in BatchKeys(b) ==> k in PutBatch(queues, b) && PutBatch(queues, b)[k] == queues[k]
    {
      PutDomainsMeaning(queues, b, |DOMAINS|, k);
      DomainsAreAll(k.domain);
    }
    if KeyPath(queues) { PutDomainsKeyPath(queues, b, |DOMAINS|); }
  }

  lemma DomainsAreAll(d: Domain)
    ensures d in DOMAINS[..|DOMAINS|]
  {
    assert DOMAINS[..|DOMAINS|] == DOMAINS;
    assert DOMAINS[0] == Commands && DOMAINS[1] == TaskOperations && DOMAINS[2] == DurationOperations
        && DOMAINS[3] == AutoStartOperations && DOMAINS[4] == SelectedTaskOperations;
  }

  function DomainKeys(d: Domain, ids: seq<string>): (keys: set<Key>)
    ensures forall k :: k in keys <==> k.domain == d && k.id in ids
  {
    set i | 0 <= i < |ids| :: Key(d, ids[i])
  }

  /** removeProofIds: sending a batch retires its IDs from the proof. */
  function RemoveProof(proof: set<Key>, sent: Batch): set<Key> {
    proof - BatchKeys(sent)
  }

  /** neverSentFromProof: proven IDs that are still queued locally and not in the sent batch. */
  function NeverSentFromProof(proof: set<Key>, local: set<Key>, sent: set<Key>): set<Key> {
    proof * local - sent
  }

  function SentKeys(claim: Option<Claim>): set<Key> {
    if claim.Some? then BatchKeys(claim.value.sent) else {}
  }

  // ---------------------------------------------------------------- encoding

  const LEGACY_EPOCH := 0

  predicate NeedsCanonicalTime(op: Operation) {
    op.wall == 0 && op.counter == 0 && op.occurredAt != LEGACY_EPOCH
  }

  function CanonicalDuration(op: Operation): Operation {
    if NeedsCanonicalTime(op) then op.(occurredAt := LEGACY_EPOCH) else op
  }

  /** What a record looks like inside a request. */
  function Encode(d: Domain, op: Operation): Operation {
    (if d == DurationOperations then CanonicalDuration(op) else op).(local := "")
  }

  predicate Queued(ids: seq<string>, d: Domain, queues: Queues) {
    forall i :: 0 <= i < |ids| ==> Key(d, ids[i]) in queues
  }

  predicate AllQueued(ids: IdLists, queues: Queues) {
    forall d: Domain :: Queued(ids.Of(d), d, queues)
  }

  function EncodeSelected(ids: IdLists, d: Domain, queues: Queues): seq<Operation>
    requires AllQueued(ids, queues)
  {
    assert Queued(ids.Of(d), d, queues);
    seq(|ids.Of(d)|, i requires 0 <= i < |ids.Of(d)| => Encode(d, queues[Key(d, ids.Of(d)[i])]))
  }

  /** encodeSelectedBatch over selectedRecords. */
  function SentBatch(ids: IdLists, queues: Queues): Batch
    requires AllQueued(ids, queues)
  {
    PerDomain(
      EncodeSelected(ids, Commands, queues), EncodeSelected(ids, TaskOperations, queues),
      EncodeSelected(ids, DurationOperations, queues), EncodeSelected(ids, AutoStartOperations, queues),
      EncodeSelected(ids, SelectedTaskOperations, queues))
  }

  /** A batch built from a selection carries exactly the selected IDs, each in its own domain. */
  lemma SentBatchKeys(ids: IdLists, queues: Queues)
    requires AllQueued(ids, queues) && KeyPath(queues)
    ensures BatchKeys(SentBatch(ids, queues)) == ListedKeys(ids)
    ensures ListedKeys(ids) <= queues.Keys
  {
    var b := SentBatch(ids, queues);
    forall d: Domain ensures |b.Of(d)| == |ids.Of(d)|
        && forall i :: 0 <= i < |ids.Of(d)| ==> b.Of(d)[i].id == ids.Of(d)[i] {
      match d
      case Commands =>
      case TaskOperations =>
      case DurationOperations =>
      case AutoStartOperations =>
      case SelectedTaskOperations =>
    }
    forall k: Key ensures k in BatchKeys(b) <==> k in ListedKeys(ids) {
      if k in ListedKeys(ids) {
        var i :| 0 <= i < |ids.Of(k.domain)| && ids.Of(k.domain)[i] == k.id;
        assert b.Of(k.domain)[i].id == k.id;
      }
    }
  }

  // ---------------------------------------------------------------- account and gate context

  function OwnerOf(snapshot: Option<Snapshot>): Option<NonEmpty> {
    if snapshot.Some? then snapshot.value.owner else None
  }

  /** What a workspace transaction is told about its caller. `current` is false when the caller's
      account scope has ended; `displayOk` is the Core's verdict on the stored display context. */
  datatype Workspace = Workspace(current: bool, owner: Option<NonEmpty>, deviceId: string, displayOk: bool)

  function AssertWorkspace(db: Db, ws: Workspace): Option<StoreError> {
    if !ws.current then Some(AccountOwnership)
    else if OwnerOf(db.snapshot) != ws.owner then Some(AccountOwnership)
    else if db.gate.Some? || db.resolution.Some? then Some(BootstrapGate)
    else if db.deviceId.Some? && db.deviceId.value != ws.deviceId then Some(AccountOwnership)
    else if ws.deviceId == "" then Some(AccountOwnership)
    else if !ws.displayOk then Some(DisplayContext)
    else None
  }

  /** What a bootstrap transaction is told; `expected` is absent when the caller does not check it. */
  datatype Context = Context(
    current: bool, expected: Option<Option<NonEmpty>>, currentUser: Option<NonEmpty>, displayOk: bool)

  function AssertStorage(db: Db, ctx: Context): Option<StoreError> {
    if !ctx.current then Some(AccountOwnership)
    else if ctx.expected.Some? && OwnerOf(db.snapshot) != ctx.expected.value then Some(AccountOwnership)
    else if db.gate.Some? && db.gate.value.accountOwner.Some? && ctx.currentUser.Some?
            && db.gate.value.accountOwner.value != ctx.currentUser.value then Some(AccountOwnership)
    else None
  }

  function AssertMetadata(db: Db, ctx: Context): Option<StoreError> {
    var failed := AssertStorage(db, ctx);
    if failed.Some? then failed else if !ctx.displayOk then Some(DisplayContext) else None
  }

  predicate LeaseIsLive(gate: Option<Gate>, now: int) {
    gate.Some? && gate.value.expiresAt > now
  }

  // ---------------------------------------------------------------- workspace mutations

  datatype MutationPlan = MutationPlan(added: Batch, retired: seq<string>, neverSent: set<Key>, base: string)

  /** planWorkspaceMutation with writePlan: add new records, delete retired durations, replace the
      proof; the first mutation of a fresh database also records the device and an empty snapshot. */
  function Mutate(db: Db, ws: Workspace, reply: CoreReply<MutationPlan>): Tx<bool> {
    var failed := AssertWorkspace(db, ws);
    if failed.Some? then Abort(failed.value)
    else match reply
      case Rejected => Abort(CoreRejected)
      case Noop => Commit(db, false)
      case Planned(plan) =>
        if !DistinctIds(plan.added) || BatchKeys(plan.added) * db.queues.Keys != {} then Abort(DuplicateKey)
        else
          Commit(db.(
            queues := PutBatch(db.queues, plan.added) - DomainKeys(DurationOperations, plan.retired),
            proof := plan.neverSent,
            deviceId := Some(if db.deviceId.Some? then db.deviceId.value else ws.deviceId),
            snapshot := if db.deviceId.None? && db.snapshot.None? then Some(Snapshot(None, 0, plan.base))
                        else db.snapshot), true)
  }

  // ---------------------------------------------------------------- outgoing claims

  /** sync.batchPlan.v1 for a new batch: what it selected and where the next batch starts. */
  datatype BatchPlan = BatchPlan(selected: IdLists, nextDomain: Domain)

  datatype ClaimInput = ClaimInput(
    ws: Workspace, claimId: string, now: int, replayOk: bool, reply: CoreReply<BatchPlan>, stillCurrent: bool)

  /** The tail shared by claimWorkspaceBatch and discardUnrecoverableSavedClaim. */
  function NewClaim(db: Db, input: ClaimInput): Tx<Option<Claim>> {
    match input.reply
    case Rejected => Abort(CoreRejected)
    case Noop => Commit(db, None)
    case Planned(plan) =>
      if !AllQueued(plan.selected, db.queues) then Abort(CoreRejected)
      else if db.snapshot.None? then Abort(InvalidRequest)
      else
        var sent := SentBatch(plan.selected, db.queues);
        var claim := Claim(Some(input.claimId), sent, input.ws.owner, input.now,
                           Some(Body(db.deviceId, db.snapshot.value.revision, sent)));
        if !input.stillCurrent then Abort(AccountOwnership)
        else
          Commit(db.(proof := RemoveProof(db.proof, sent), outgoing := Some(claim), nextDomain := plan.nextDomain),
                 Some(claim))
  }

  predicate ForeignClaim(claim: Claim, owner: Option<NonEmpty>) {
    claim.owner.Some? && claim.owner != owner
  }

  /** claimWorkspaceBatch: a saved claim is returned for exact replay, otherwise a new one is made. */
  function ClaimBatch(db: Db, input: ClaimInput): Tx<Option<Claim>> {
    var failed := AssertWorkspace(db, input.ws);
    if failed.Some? then Abort(failed.value)
    else match db.outgoing
      case None => NewClaim(db, input)
      case Some(saved) =>
        if ForeignClaim(saved, input.ws.owner) then Abort(AccountOwnership)
        else if !input.replayOk then Commit(db, Some(saved))
        else if saved.body.Some? && (saved.body.value.deviceId != db.deviceId || saved.body.value.sent != saved.sent)
        then Abort(InvalidRequest)
        else Commit(db, Some(saved))
  }

  /** discardUnrecoverableSavedClaim: only a claim without its request bytes may be given up. */
  function DiscardClaim(db: Db, input: ClaimInput, confirmed: bool): Tx<Option<Claim>> {
    var failed := AssertWorkspace(db, input.ws);
    if failed.Some? then Abort(failed.value)
    else if !confirmed || db.outgoing.None? || db.outgoing.value.body.Some? then Abort(InvalidRequest)
    else if ForeignClaim(db.outgoing.value, input.ws.owner) then Abort(AccountOwnership)
    else NewClaim(db.(outgoing := None), input)
  }

  // ---------------------------------------------------------------- sync responses

  /** The Core's reconciliation of a response: the rebased queues and the timer commands it drops. */
  datatype Rebased = Rebased(queues: Batch, dropped: seq<string>)

  datatype SyncInput = SyncInput(
    current: bool, displayOk: bool, expectedUser: Option<NonEmpty>, snapshot: Snapshot, serverTimeOk: bool,
    acknowledged: IdLists, sent: Option<Batch>, deviceId: Option<string>, claim: Option<Claim>,
    rebased: CoreReply<Rebased>, clock: Option<Clock.Sample>)

  datatype SyncOutcome = Ignored | Stale | Applied

  /** captureSyncClaim accepts the claim that a response is delivered with. */
  function ClaimError(claim: Claim, sent: Option<Batch>, owner: Option<NonEmpty>,
      deviceId: Option<string>): Option<StoreError> {
    if claim.body.None? || claim.claimId == Some("") || sent != Some(claim.sent) then Some(InvalidRequest)
    else if claim.owner != owner then Some(AccountOwnership)
    else if claim.body.value.deviceId != deviceId || !(0 <= claim.body.value.lastRevision <= MAX_SAFE)
            || claim.body.value.sent != claim.sent then Some(InvalidRequest)
    else None
  }

  /** responseClaimPlan: the response belongs to the claim that is saved now (or to none at all). */
  predicate Applicable(db: Db, input: SyncInput) {
    db.outgoing == input.claim
  }

  function WithClock(db: Db, incoming: Option<Clock.Sample>): Db {
    if incoming.Some? && Clock.Replaces(db.clock, incoming.value) then db.(clock := incoming) else db
  }

  function SyncQueues(queues: Queues, acknowledged: IdLists, rebased: Rebased): Queues {
    PutBatch(queues - ListedKeys(acknowledged) - DomainKeys(Commands, rebased.dropped), rebased.queues)
  }

  /** applySyncResponse: planSyncResponse followed by persistSyncResponsePlan. */
  function ApplySync(db: Db, input: SyncInput): Tx<SyncOutcome> {
    var invalid := if input.claim.None? then None
                   else ClaimError(input.claim.value, input.sent, input.expectedUser, input.deviceId);
    if invalid.Some? then Abort(invalid.value)
    else if input.clock.Some? && !Clock.Valid(input.clock.value) then Abort(ClockRange)
    else if !input.current || input.expectedUser.None? || OwnerOf(db.snapshot) != input.expectedUser
            || input.snapshot.owner != input.expectedUser then Abort(AccountOwnership)
    else if db.gate.Some? || db.resolution.Some? then Abort(BootstrapGate)
    else if !input.serverTimeOk then Abort(InvalidRequest)
    else if !Applicable(db, input) then Commit(db, Ignored)
    else if !input.displayOk then Abort(DisplayContext)
    else if db.snapshot.value.revision > input.snapshot.revision then Commit(WithClock(db, input.clock), Stale)
    else match input.rebased
      case Noop => Abort(CoreRejected)
      case Rejected => Abort(CoreRejected)
      case Planned(rebased) =>
        var sent := if input.sent.Some? then BatchKeys(input.sent.value) else {};
        Commit(WithClock(db, input.clock).(
          queues := SyncQueues(db.queues, input.acknowledged, rebased),
          snapshot := Some(input.snapshot),
          outgoing := None,
          proof := NeverSentFromProof(db.proof, BatchKeys(rebased.queues), sent)), Applied)
  }

  // ---------------------------------------------------------------- bootstrap gate

  datatype Lease = Lease(token: NonEmpty, now: int, leaseMs: int, user: Option<NonEmpty>)

  function BoundLease(lease: Lease): Gate {
    Gate(lease.token, lease.now, lease.now + lease.leaseMs, lease.user)
  }

  datatype GateOutcome = GateOutcome(acquired: bool, takenOver: bool)

  /** acquireBootstrapGate: a free, own or expired gate is taken and a stored resolution follows it. */
  function AcquireGate(db: Db, ctx: Context, lease: Lease): Tx<GateOutcome> {
    var failed := AssertMetadata(db, ctx.(currentUser := None));
    if failed.Some? then Abort(failed.value)
    else if db.gate.Some? && db.gate.value.accountOwner.Some? && lease.user.Some?
            && db.gate.value.accountOwner != lease.user then Commit(db, GateOutcome(false, false))
    else if !(db.gate.Some? && db.gate.value.token == lease.token) && LeaseIsLive(db.gate, lease.now)
    then Commit(db, GateOutcome(false, false))
    else
      Commit(db.(
        gate := Some(BoundLease(lease)),
        resolution := if db.resolution.Some? then Some(db.resolution.value.(gateToken := lease.token)) else None),
        GateOutcome(true, db.gate.Some? && db.gate.value.token != lease.token))
  }

  function ClearGate(db: Db, ctx: Context, token: NonEmpty): Tx<()> {
    var failed := AssertMetadata(db, ctx);
    if failed.Some? then Abort(failed.value)
    else if db.resolution.Some? then Abort(BootstrapGate)
    else if !(db.gate.Some? && db.gate.value.token == token) then Abort(BootstrapGate)
    else Commit(db.(gate := None), ())
  }

  // ---------------------------------------------------------------- bootstrap resolutions

  datatype CaptureInput = CaptureInput(
    ctx: Context, userId: NonEmpty, requestId: string, deviceId: string, expectedRevision: int, strategy: Strategy,
    autoStartPresent: bool, replaceExisting: bool, gateToken: NonEmpty, reply: CoreReply<BatchPlan>)

  function ValidateCapture(db: Db, input: CaptureInput): Option<StoreError> {
    var failed := AssertStorage(db, input.ctx.(currentUser := Some(input.userId)));
    if failed.Some? then failed
    else if !(db.gate.Some? && db.gate.value.token == input.gateToken) then Some(BootstrapGate)
    else if db.resolution.None? then None
    else if !input.replaceExisting || db.resolution.value.state != NeverSent then Some(BootstrapGate)
    else if db.resolution.value.gateToken != input.gateToken || input.requestId == ""
            || input.requestId == db.resolution.value.payload.requestId then Some(BootstrapGate)
    else None
  }

  /** Durations whose encoded time differs from the stored one: the capture would rewrite them. */
  predicate RewritesUnproven(db: Db, durations: seq<string>)
    requires Queued(durations, DurationOperations, db.queues)
  {
    var proven := NeverSentFromProof(db.proof, db.queues.Keys, SentKeys(db.outgoing));
    exists i :: 0 <= i < |durations|
      && NeedsCanonicalTime(db.queues[Key(DurationOperations, durations[i])])
      && Key(DurationOperations, durations[i]) !in proven
  }

  function RewriteDurations(queues: Queues, ids: set<Key>): Queues {
    map k | k in queues ::
      if k in ids && k.domain == DurationOperations then CanonicalDuration(queues[k]) else queues[k]
  }

  /** captureResolution: builds the payload from the queues under the caller's gate. */
  function Capture(db: Db, input: CaptureInput): Tx<Resolution> {
    var failed := ValidateCapture(db, input);
    if failed.Some? then Abort(failed.value)
    else if !input.ctx.displayOk then Abort(DisplayContext)
    else match input.reply
      case Rejected => Abort(CoreRejected)
      case Noop => Abort(ResolutionLimit)
      case Planned(plan) =>
        var planning := if input.strategy == KeepRemote then map[] else db.queues;
        if !AllQueued(plan.selected, planning) then Abort(CoreRejected)
        else
          assert Queued(plan.selected.Of(DurationOperations), DurationOperations, planning);
          if RewritesUnproven(db, plan.selected.durationOperations) then Abort(BootstrapGate)
          else
            var autoStart := input.autoStartPresent || exists k :: k in db.queues && k.domain == AutoStartOperations;
            var payload := Payload(input.requestId, input.deviceId, input.expectedRevision, input.strategy,
                                   SentBatch(plan.selected, planning), autoStart);
            var source := Some(OwnerOf(db.snapshot));
            var pending := Resolution(input.userId, payload, db.queues.Keys, NeverSent, input.gateToken, source);
            Commit(db.(
              queues := RewriteDurations(db.queues, DomainKeys(DurationOperations, plan.selected.durationOperations)),
              resolution := Some(pending)), pending)
  }

  datatype SendInput = SendInput(
    ctx: Context, pending: Option<Resolution>, user: NonEmpty, lease: Lease, replayOk: bool)

  function ValidateApply(db: Db, pending: Resolution): Option<StoreError> {
    var failed := AssertStorage(db, Context(true, pending.source, Some(pending.userId), true));
    if failed.Some? then failed
    else if db.resolution != Some(pending) then Some(BootstrapGate)
    else if !(db.gate.Some? && db.gate.value.token == pending.gateToken) then Some(BootstrapGate)
    else None
  }

  /** validatePendingForSend: from here on the request counts as possibly delivered. The gate is
      rewritten with the token of `lease`, which the code does not compare with the pending one. */
  function Send(db: Db, input: SendInput): Tx<Resolution> {
    var failed := AssertMetadata(db, input.ctx.(currentUser := Some(input.user)));
    if failed.Some? then Abort(failed.value)
    else if input.pending.None? || input.pending.value.userId != input.user
        || db.resolution != input.pending then Abort(BootstrapGate)
    else
      var refused := ValidateApply(db, input.pending.value);
      if refused.Some? then Abort(refused.value)
      else if !input.replayOk then Abort(BootstrapGate)
      else
        var claimed := input.pending.value.(state := PossiblyDelivered);
        Commit(db.(
          resolution := Some(claimed),
          proof := RemoveProof(db.proof, claimed.payload.ops),
          gate := Some(BoundLease(input.lease.(user := Some(input.user))))), claimed)
  }

  datatype AccountBinding = AccountBinding(
    owner: Option<NonEmpty>, gateOwner: Option<NonEmpty>, source: Option<NonEmpty>)

  datatype InvalidateInput = InvalidateInput(
    ctx: Context, lease: Lease, user: NonEmpty, binding: Option<AccountBinding>)

  datatype InvalidateOutcome = InvalidateOutcome(acquired: bool, invalidated: bool)

  /** invalidateForeignResolution: the current account takes a free or expired gate and drops a
      resolution that belongs to another account. */
  function Invalidate(db: Db, input: InvalidateInput): Tx<InvalidateOutcome> {
    var failed := AssertMetadata(db, input.ctx.(currentUser := None));
    if failed.Some? then Abort(failed.value)
    else if db.gate.Some? && db.gate.value.accountOwner.Some? && db.gate.value.accountOwner != Some(input.user)
            && input.binding != Some(AccountBinding(Some(input.user), db.gate.value.accountOwner, OwnerOf(db.snapshot)))
    then Abort(AccountOwnership)
    else if !(db.gate.Some? && db.gate.value.token == input.lease.token) && LeaseIsLive(db.gate, input.lease.now)
    then Commit(db, InvalidateOutcome(false, false))
    else
      var foreign := db.resolution.Some? && db.resolution.value.userId != input.user;
      Commit(db.(
        resolution := if db.resolution.None? || foreign then None
                      else Some(db.resolution.value.(gateToken := input.lease.token)),
        gate := Some(BoundLease(input.lease.(user := Some(input.user))))), InvalidateOutcome(true, foreign))
  }

  /** What becomes of the queues: the Core's reconciliation replaces them all, or, without one, the
      captured records give way to promoted commands and to what the caller retained, if anything. */
  datatype Replacement =
    | Reconciled(queues: Batch)
    | Retained(promoted: seq<Operation>, retained: Option<Batch>, dropped: seq<string>)
  {
    /** The records put into the stores. */
    function Items(): Batch {
      match this
      case Reconciled(queues) => queues
      case Retained(promoted, retained, _) =>
        (if retained.Some? then retained.value else EMPTY_BATCH).(commands := promoted)
    }

    function Queues(before: Queues, captured: set<Key>): Queues {
      match this
      case Reconciled(queues) => PutBatch(map[], queues)
      case Retained(_, _, dropped) => PutBatch(before - captured, Items()) - DomainKeys(Commands, dropped)
    }

    function Proof(before: set<Key>, sent: set<Key>): set<Key> {
      match this
      case Reconciled(queues) => NeverSentFromProof(before, BatchKeys(queues), sent)
      case Retained(_, retained, _) =>
        if retained.Some? then NeverSentFromProof(before, BatchKeys(retained.value), sent) else before
    }
  }

  datatype ApplyInput = ApplyInput(
    current: bool, displayOk: bool, pending: Resolution, snapshot: Snapshot, replacement: CoreReply<Replacement>,
    clock: Option<Clock.Sample>, stillCurrent: bool)

  datatype ApplyOutcome = StaleSuccess | ResolutionApplied

  /** The resolution was already applied by another tab and the account has moved on from there. */
  predicate IsStaleSuccess(db: Db, pending: Resolution, canonical: Snapshot) {
    db.resolution.None? && db.gate.None? && OwnerOf(db.snapshot) == Some(pending.userId)
    && db.snapshot.value.revision >= canonical.revision
  }

  /** applyResolution */
  function ApplyResolution(db: Db, input: ApplyInput): Tx<ApplyOutcome> {
    if input.clock.Some? && !Clock.Valid(input.clock.value) then Abort(ClockRange)
    else if !input.current || input.snapshot.owner != Some(input.pending.userId) then Abort(AccountOwnership)
    else if !input.displayOk then Abort(DisplayContext)
    else if IsStaleSuccess(db, input.pending, input.snapshot) then
      if input.stillCurrent then Commit(WithClock(db, input.clock), StaleSuccess) else Abort(AccountOwnership)
    else
      var refused := ValidateApply(db, input.pending);
      if refused.Some? then Abort(refused.value)
      else match input.replacement
        case Rejected => Abort(CoreRejected)
        case Noop => Abort(CoreRejected)
        case Planned(replacement) =>
          if !input.stillCurrent then Abort(AccountOwnership)
          else
            Commit(WithClock(db, input.clock).(
              queues := replacement.Queues(db.queues, input.pending.queued),
              snapshot := Some(input.snapshot),
              proof := replacement.Proof(db.proof, BatchKeys(input.pending.payload.ops)),
              outgoing := None, resolution := None, gate := None), ResolutionApplied)
  }

  // ---------------------------------------------------------------- legacy durations

  datatype NormalizeInput = NormalizeInput(ctx: Context, gateToken: Option<NonEmpty>, replacementId: Option<string>)

  function CanonicalDurations(ops: seq<Operation>): seq<Operation> {
    seq(|ops|, i requires 0 <= i < |ops| => CanonicalDuration(ops[i]))
  }

  predicate NeedsRotation(resolution: Option<Resolution>) {
    resolution.Some?
    && exists op :: op in resolution.value.payload.ops.durationOperations && NeedsCanonicalTime(op)
  }

  /** rotateLegacyDurationResolution */
  function Rotate(db: Db, input: NormalizeInput): Result<Option<Resolution>, StoreError> {
    if !NeedsRotation(db.resolution) || input.gateToken.None? then Success(db.resolution)
    else
      var captured := db.resolution.value;
      if captured.state != NeverSent then Failure(BootstrapGate)
      else if !(db.gate.Some? && db.gate.value.token == input.gateToken.value)
          || captured.gateToken != input.gateToken.value
      then Failure(BootstrapGate)
      else if input.replacementId.None? || input.replacementId.value == ""
          || input.replacementId.value == captured.payload.requestId
      then Failure(BootstrapGate)
      else
        var durations := CanonicalDurations(captured.payload.ops.durationOperations);
        var ops := captured.payload.ops.(durationOperations := durations);
        Success(Some(captured.(payload := captured.payload.(requestId := input.replacementId.value, ops := ops))))
  }

  /** The stored durations that normalization would rewrite. */
  function LegacyDurations(queues: Queues): set<Key> {
    set k | k in queues && k.domain == DurationOperations && NeedsCanonicalTime(queues[k])
  }

  /** normalizeLegacyDurationOperations */
  function Normalize(db: Db, input: NormalizeInput): Tx<()> {
    var failed := AssertMetadata(db, input.ctx);
    if failed.Some? then Abort(failed.value)
    else if !(LegacyDurations(db.queues) <= db.proof - SentKeys(db.outgoing)) then Abort(BootstrapGate)
    else match Rotate(db, input)
      case Failure(error) => Abort(error)
      case Success(resolution) =>
        Commit(db.(queues := RewriteDurations(db.queues, db.queues.Keys), resolution := resolution), ())
  }

  /** migrateLegacyPreferences: queues operations for old settings; allowed while the gate is held. */
  function MigratePreferences(db: Db, ctx: Context, stillCurrent: bool, reply: CoreReply<MutationPlan>): Tx<bool> {
    var failed := AssertMetadata(db, ctx);
    if failed.Some? then Abort(failed.value)
    else match reply
      case Rejected => Abort(CoreRejected)
      case Noop => if stillCurrent then Commit(db, false) else Abort(AccountOwnership)
      case Planned(plan) =>
        if !stillCurrent then Abort(AccountOwnership)
        else if !DistinctIds(plan.added) || BatchKeys(plan.added) * db.queues.Keys != {} then Abort(DuplicateKey)
        else Commit(db.(queues := PutBatch(db.queues, plan.added), proof := plan.neverSent), true)
  }
}
