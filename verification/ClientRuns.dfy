/** Every run of the client's transactions: any number of tabs interleave them on one database,
    responses arrive late, twice or never. Ghost history on top of the database records what was
    ever exposed to the network and what was ever applied. */
module ClientRuns {
  import opened Wire
  import opened Sequences
  import opened ClientStore
  import Clock = ClockSamples

  datatype Action =
    | DoMutate(ws: Workspace, plan: CoreReply<MutationPlan>)
    | DoMigrate(migrateCtx: Context, migrateCurrent: bool, migration: CoreReply<MutationPlan>)
    | DoClaim(claim: ClaimInput)
    | DoDiscard(discard: ClaimInput, confirmed: bool)
    | DoSync(sync: SyncInput)
    | DoAcquire(acquireCtx: Context, lease: Lease)
    | DoClear(clearCtx: Context, token: NonEmpty)
    | DoCapture(capture: CaptureInput)
    | DoSend(send: SendInput)
    | DoInvalidate(invalidate: InvalidateInput)
    | DoApply(apply: ApplyInput)
    | DoNormalize(normalize: NormalizeInput)

  function Perform(db: Db, a: Action): Db {
    match a
    case DoMutate(ws, plan) => Mutate(db, ws, plan).After(db)
    case DoMigrate(ctx, current, plan) => MigratePreferences(db, ctx, current, plan).After(db)
    case DoClaim(input) => ClaimBatch(db, input).After(db)
    case DoDiscard(input, confirmed) => DiscardClaim(db, input, confirmed).After(db)
    case DoSync(input) => ApplySync(db, input).After(db)
    case DoAcquire(ctx, lease) => AcquireGate(db, ctx, lease).After(db)
    case DoClear(ctx, token) => ClearGate(db, ctx, token).After(db)
    case DoCapture(input) => Capture(db, input).After(db)
    case DoSend(input) => Send(db, input).After(db)
    case DoInvalidate(input) => Invalidate(db, input).After(db)
    case DoApply(input) => ApplyResolution(db, input).After(db)
    case DoNormalize(input) => Normalize(db, input).After(db)
  }

  predicate AppliesSync(db: Db, a: Action) {
    a.DoSync? && ApplySync(db, a.sync).Commit? && ApplySync(db, a.sync).value == Applied
  }

  predicate AppliesResolution(db: Db, a: Action) {
    a.DoApply? && ApplyResolution(db, a.apply).Commit? && ApplyResolution(db, a.apply).value == ResolutionApplied
  }

  /** The database with its history: every key ever put in a claim or in a possibly delivered
      resolution, the claim and request IDs ever stored, and what was applied, in order. */
  datatype World = World(
    db: Db, exposed: set<Key>, claimIds: set<string>, delivered: seq<Claim>, requestIds: set<string>,
    settled: seq<string>)

  function ClaimIds(claim: Option<Claim>): set<string> {
    if claim.Some? && claim.value.claimId.Some? then {claim.value.claimId.value} else {}
  }

  function DeliveredKeys(resolution: Option<Resolution>): set<Key> {
    if resolution.Some? && resolution.value.state == PossiblyDelivered then BatchKeys(resolution.value.payload.ops)
        else {}
  }

  function RequestIds(resolution: Option<Resolution>): set<string> {
    if resolution.Some? then {resolution.value.payload.requestId} else {}
  }

  /** Extends the history by a transaction that left `db` behind. */
  function Record(w: World, db: Db, delivered: Option<Claim>, settled: Option<string>): World {
    World(db,
      w.exposed + SentKeys(db.outgoing) + DeliveredKeys(db.resolution),
      w.claimIds + ClaimIds(db.outgoing),
      if delivered.Some? then w.delivered + [delivered.value] else w.delivered,
      w.requestIds + RequestIds(db.resolution),
      if settled.Some? then w.settled + [settled.value] else w.settled)
  }

  function Step(w: World, a: Action): World {
    Record(w, Perform(w.db, a),
      if AppliesSync(w.db, a) then w.db.outgoing else None,
      if AppliesResolution(w.db, a) then Some(a.apply.pending.payload.requestId) else None)
  }

  function Run(w: World, actions: seq<Action>): World
    decreases |actions|
  {
    if actions == [] then w else Step(Run(w, actions[..|actions| - 1]), actions[|actions| - 1])
  }

  /** The Core's contract: new operations have fresh IDs and only proven or new IDs stay proven. */
  predicate HonestPlan(w: World, reply: CoreReply<MutationPlan>) {
    reply.Planned? ==>
      && BatchKeys(reply.plan.added) !! w.exposed
      && reply.plan.neverSent <= w.db.proof + BatchKeys(reply.plan.added)
      && DomainKeys(DurationOperations, reply.plan.retired) !! SentKeys(w.db.outgoing)
  }

  /** What callers guarantee: random IDs are fresh, and a tab sends only under its own token. */
  predicate Admissible(w: World, a: Action) {
    match a
    case DoMutate(_, plan) => HonestPlan(w, plan)
    case DoMigrate(_, _, plan) => HonestPlan(w, plan)
    case DoClaim(input) => input.claimId !in w.claimIds
    case DoDiscard(input, _) => input.claimId !in w.claimIds
    case DoCapture(input) => input.requestId !in w.requestIds
    case DoNormalize(input) => input.replacementId.Some? ==> input.replacementId.value !in w.requestIds
    case DoSend(input) => input.pending.Some? ==> input.lease.token == input.pending.value.gateToken
    case _ => true
  }

  predicate AdmissibleRun(w: World, actions: seq<Action>) {
    forall n :: 0 <= n < |actions| ==> Admissible(Run(w, actions[..n]), actions[n])
  }

  // ---------------------------------------------------------------- the invariant

  predicate GateHeld(db: Db) {
    db.resolution.Some? ==> db.gate.Some? && db.gate.value.token == db.resolution.value.gateToken
  }

  /** Nothing that may have left the device is still proven never sent. */
  predicate ProofSound(w: World) {
    && w.db.proof !! w.exposed
    && SentKeys(w.db.outgoing) <= w.exposed
    && DeliveredKeys(w.db.resolution) <= w.exposed
  }

  predicate ClaimsOnce(w: World) {
    && Distinct(w.delivered)
    && ClaimIds(w.db.outgoing) <= w.claimIds
    && (forall c :: c in w.delivered ==> c.claimId.Some? ==> c.claimId.value in w.claimIds)
    && (w.db.outgoing.Some? ==> w.db.outgoing.value !in w.delivered)
    && (w.db.outgoing.Some? && w.db.outgoing.value.claimId.None? ==> w.delivered == [])
  }

  predicate RequestsOnce(w: World) {
    && Distinct(w.settled)
    && RequestIds(w.db.resolution) <= w.requestIds
    && (forall id :: id in w.settled ==> id in w.requestIds)
    && RequestIds(w.db.resolution) !! set id | id in w.settled
  }

  predicate Inv(w: World) {
    KeyPath(w.db.queues) && ProofSound(w) && GateHeld(w.db) && ClaimsOnce(w) && RequestsOnce(w)
  }

  /** A database as the app may find it: whatever is saved counts as exposed and is not proven. */
  predicate Initial(w: World) {
    && w == World(w.db, SentKeys(w.db.outgoing) + DeliveredKeys(w.db.resolution), ClaimIds(w.db.outgoing), [],
                  RequestIds(w.db.resolution), [])
    && KeyPath(w.db.queues) && GateHeld(w.db) && w.db.proof !! w.exposed
  }

  // One lemma per transaction: whatever it is given, it keeps the invariant.

  lemma QuietStep(w: World, db: Db)
    requires Inv(w)
    requires db.outgoing == w.db.outgoing && db.resolution == w.db.resolution && db.gate == w.db.gate
    requires db.proof !! w.exposed && KeyPath(db.queues)
    ensures Inv(Record(w, db, None, None))
  {
  }

  lemma MutateKeeps(w: World, ws: Workspace, reply: CoreReply<MutationPlan>)
    requires Inv(w) && HonestPlan(w, reply)
    ensures Inv(Record(w, Mutate(w.db, ws, reply).After(w.db), None, None))
  {
    if reply.Planned? { PutBatchMeaning(w.db.queues, reply.plan.added); }
    QuietStep(w, Mutate(w.db, ws, reply).After(w.db));
  }

  lemma MigrateKeeps(w: World, ctx: Context, current: bool, reply: CoreReply<MutationPlan>)
    requires Inv(w) && HonestPlan(w, reply)
    ensures Inv(Record(w, MigratePreferences(w.db, ctx, current, reply).After(w.db), None, None))
  {
    if reply.Planned? { PutBatchMeaning(w.db.queues, reply.plan.added); }
    QuietStep(w, MigratePreferences(w.db, ctx, current, reply).After(w.db));
  }

  lemma NewClaimKeeps(w: World, base: Db, input: ClaimInput)
    requires Inv(w) && input.claimId !in w.claimIds
    requires base == w.db.(outgoing := None)
    ensures NewClaim(base, input).Commit? ==> Inv(Record(w, NewClaim(base, input).db, None, None))
  {
  }

  lemma ClaimKeeps(w: World, input: ClaimInput)
    requires Inv(w) && input.claimId !in w.claimIds
    ensures Inv(Record(w, ClaimBatch(w.db, input).After(w.db), None, None))
  {
    QuietStep(w, w.db);
    if w.db.outgoing.None? { NewClaimKeeps(w, w.db, input); }
  }

  lemma DiscardKeeps(w: World, input: ClaimInput, confirmed: bool)
    requires Inv(w) && input.claimId !in w.claimIds
    ensures Inv(Record(w, DiscardClaim(w.db, input, confirmed).After(w.db), None, None))
  {
    QuietStep(w, w.db);
    NewClaimKeeps(w, w.db.(outgoing := None), input);
  }

  lemma SyncKeeps(w: World, input: SyncInput)
    requires Inv(w)
    ensures var tx := ApplySync(w.db, input);
            Inv(Record(w, tx.After(w.db), if tx.Commit? && tx.value == Applied then w.db.outgoing else None, None))
  {
    var tx := ApplySync(w.db, input);
    if tx.Commit? && tx.value == Applied { SyncedKeeps(w, input); } else { QuietStep(w, tx.After(w.db)); }
  }

  lemma SyncedKeeps(w: World, input: SyncInput)
    requires Inv(w) && ApplySync(w.db, input).Commit? && ApplySync(w.db, input).value == Applied
    ensures Inv(Record(w, ApplySync(w.db, input).db, w.db.outgoing, None))
  {
    hide PutBatch, BatchKeys, ListedKeys, DomainKeys;
    PutBatchMeaning(w.db.queues - ListedKeys(input.acknowledged) - DomainKeys(Commands, input.rebased.plan.dropped),
                    input.rebased.plan.queues);
  }

  lemma AcquireKeeps(w: World, ctx: Context, lease: Lease)
    requires Inv(w)
    ensures Inv(Record(w, AcquireGate(w.db, ctx, lease).After(w.db), None, None))
  {
  }

  lemma ClearKeeps(w: World, ctx: Context, token: NonEmpty)
    requires Inv(w)
    ensures Inv(Record(w, ClearGate(w.db, ctx, token).After(w.db), None, None))
  {
  }

  lemma CaptureKeeps(w: World, input: CaptureInput)
    requires Inv(w) && input.requestId !in w.requestIds
    ensures Inv(Record(w, Capture(w.db, input).After(w.db), None, None))
  {
  }

  lemma SendKeeps(w: World, input: SendInput)
    requires Inv(w) && (input.pending.Some? ==> input.lease.token == input.pending.value.gateToken)
    ensures Inv(Record(w, Send(w.db, input).After(w.db), None, None))
  {
  }

  lemma InvalidateKeeps(w: World, input: InvalidateInput)
    requires Inv(w)
    ensures Inv(Record(w, Invalidate(w.db, input).After(w.db), None, None))
  {
  }

  lemma ApplyKeeps(w: World, input: ApplyInput)
    requires Inv(w)
    ensures var tx := ApplyResolution(w.db, input);
            Inv(Record(w, tx.After(w.db), None,
                       if tx.Commit? && tx.value == ResolutionApplied then Some(input.pending.payload.requestId)
                           else None))
  {
    var tx := ApplyResolution(w.db, input);
    if tx.Commit? && tx.value == ResolutionApplied { ResolvedKeeps(w, input); } else { QuietStep(w, tx.After(w.db)); }
  }

  lemma ReplacementKeeps(r: Replacement, queues: Queues, captured: set<Key>, proof: set<Key>, sent: set<Key>)
    requires KeyPath(queues)
    ensures KeyPath(r.Queues(queues, captured)) && r.Proof(proof, sent) <= proof
  {
    PutBatchMeaning(map[], r.Items());
    PutBatchMeaning(queues - captured, r.Items());
    hide PutBatch, BatchKeys, DomainKeys;
  }

  lemma InvKeyPath(w: World)
    requires Inv(w)
    ensures KeyPath(w.db.queues)
  {
  }

  lemma ResolvedKeeps(w: World, input: ApplyInput)
    requires Inv(w) && ApplyResolution(w.db, input).Commit? && ApplyResolution(w.db, input).value == ResolutionApplied
    ensures Inv(Record(w, ApplyResolution(w.db, input).db, None, Some(input.pending.payload.requestId)))
  {
    hide Inv, Record, PutBatch, BatchKeys, Replacement.Queues, Replacement.Proof;
    assert KeyPath(w.db.queues) by { InvKeyPath(w); }
    var sent := BatchKeys(input.pending.payload.ops);
    ReplacementKeeps(input.replacement.plan, w.db.queues, input.pending.queued, w.db.proof, sent);
    assert w.db.resolution == Some(input.pending);
    SettledKeeps(w, ApplyResolution(w.db, input).db, input.pending.payload.requestId);
  }

  lemma SettledKeeps(w: World, db: Db, id: string)
    requires Inv(w) && w.db.resolution.Some? && w.db.resolution.value.payload.requestId == id
    requires db.outgoing.None? && db.resolution.None? && KeyPath(db.queues) && db.proof <= w.db.proof
    ensures Inv(Record(w, db, None, Some(id)))
  {
    hide KeyPath, BatchKeys;
  }

  lemma NormalizeKeeps(w: World, input: NormalizeInput)
    requires Inv(w) && (input.replacementId.Some? ==> input.replacementId.value !in w.requestIds)
    ensures Inv(Record(w, Normalize(w.db, input).After(w.db), None, None))
  {
  }

  lemma StepKeepsInv(w: World, a: Action)
    requires Inv(w) && Admissible(w, a)
    ensures Inv(Step(w, a))
  {
    hide Inv, ApplySync, ApplyResolution, Mutate, MigratePreferences, ClaimBatch, DiscardClaim, AcquireGate, ClearGate,
        Capture, Send, Invalidate, Normalize, Record;
    match a
    case DoMutate(ws, plan) => MutateKeeps(w, ws, plan);
    case DoMigrate(ctx, current, plan) => MigrateKeeps(w, ctx, current, plan);
    case DoClaim(input) => ClaimKeeps(w, input);
    case DoDiscard(input, confirmed) => DiscardKeeps(w, input, confirmed);
    case DoSync(input) => SyncKeeps(w, input);
    case DoAcquire(ctx, lease) => AcquireKeeps(w, ctx, lease);
    case DoClear(ctx, token) => ClearKeeps(w, ctx, token);
    case DoCapture(input) => CaptureKeeps(w, input);
    case DoSend(input) => SendKeeps(w, input);
    case DoInvalidate(input) => InvalidateKeeps(w, input);
    case DoApply(input) => ApplyKeeps(w, input);
    case DoNormalize(input) => NormalizeKeeps(w, input);
  }

  lemma ShorterIsAdmissible(w: World, actions: seq<Action>)
    requires actions != [] && AdmissibleRun(w, actions)
    ensures var shorter := actions[..|actions| - 1];
            AdmissibleRun(w, shorter) && Admissible(Run(w, shorter), actions[|actions| - 1])
  {
    hide Run, Admissible;
    var shorter := actions[..|actions| - 1];
    forall n | 0 <= n < |shorter| ensures Admissible(Run(w, shorter[..n]), shorter[n]) {
      assert shorter[..n] == actions[..n];
    }
  }

  lemma InitialHolds(w: World)
    requires Initial(w)
    ensures Inv(w)
  {
  }

  /** Every reachable world satisfies the invariant. */
  lemma {:induction false} RunKeepsInv(w: World, actions: seq<Action>)
    requires Initial(w) && AdmissibleRun(w, actions)
    ensures Inv(Run(w, actions))
    decreases |actions|
  {
    if actions == [] {
      InitialHolds(w);
    } else {
      hide Inv, Step, Admissible, Initial, AdmissibleRun;
      var shorter := actions[..|actions| - 1];
      ShorterIsAdmissible(w, actions);
      RunKeepsInv(w, shorter);
      StepKeepsInv(Run(w, shorter), actions[|actions| - 1]);
    }
  }
}
