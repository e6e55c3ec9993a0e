/** What the reachable worlds of `ClientRuns` guarantee: gate safety, immutable requests,
    at-most-once delivery, and that no queued or possibly delivered work is lost or rewritten. */
module ClientSafety {
  import opened Wire
  import opened ClientStore
  import opened ClientRuns

  // ---------------------------------------------------------------- gate safety

  /** While a gate or a resolution is stored, ordinary work changes nothing. */
  lemma GateBlocksOrdinaryWork(db: Db, a: Action)
    requires db.gate.Some? || db.resolution.Some?
    requires a.DoMutate? || a.DoClaim? || a.DoDiscard? || a.DoSync?
    ensures Perform(db, a) == db
  {
  }

  /** The token an action acts under when it wants to use or take the gate. */
  function ActingToken(a: Action): Option<NonEmpty> {
    match a
    case DoAcquire(_, lease) => Some(lease.token)
    case DoInvalidate(input) => Some(input.lease.token)
    case DoClear(_, token) => Some(token)
    case DoCapture(input) => Some(input.gateToken)
    case DoSend(input) => Some(input.lease.token)
    case DoApply(input) => Some(input.pending.gateToken)
    case DoNormalize(input) => input.gateToken
    case _ => None
  }

  predicate Holds(db: Db, token: NonEmpty) {
    db.gate.Some? && db.gate.value.token == token
  }

  /** Clearing, capturing, sending and applying need the gate; without it they change neither the
      gate, nor the resolution, nor the snapshot, nor the proof, nor a claim. */
  lemma OnlyTheHolderActs(w: World, a: Action, token: NonEmpty)
    requires Inv(w) && Admissible(w, a)
    requires a.DoClear? || a.DoCapture? || a.DoSend? || a.DoApply?
    requires ActingToken(a) == Some(token) && !Holds(w.db, token)
    ensures Perform(w.db, a) == w.db.(clock := Perform(w.db, a).clock)
  {
    match a
    case DoClear(ctx, t) =>
    case DoCapture(input) =>
    case DoSend(input) =>
    case DoApply(input) =>
  }

  predicate TakesGate(a: Action) {
    a.DoAcquire? || a.DoInvalidate?
  }

  function TakingLease(a: Action): Lease
    requires TakesGate(a)
  {
    if a.DoAcquire? then a.lease else a.invalidate.lease
  }

  /** The gate changes hands only through a taking action, and only when the old lease has run out. */
  lemma GateChangesHandsOnlyAfterExpiry(w: World, a: Action)
    requires Inv(w) && Admissible(w, a)
    ensures var before, after := w.db.gate, Perform(w.db, a).gate;
            after.Some? && !(before.Some? && before.value.token == after.value.token) ==>
              TakesGate(a) && after.value.token == TakingLease(a).token && !LeaseIsLive(before, TakingLease(a).now)
  {
    match a
    case DoSend(input) =>
    case DoAcquire(ctx, lease) =>
    case DoInvalidate(input) =>
    case _ =>
  }

  lemma StepPerforms(w: World, a: Action)
    ensures Step(w, a).db == Perform(w.db, a)
  {
  }

  /** A tab whose lease was taken over stays without the gate, whatever the others do, until it
      takes the gate itself; so it can never clear it, capture, send or apply in the meantime. */
  lemma {:induction false} LostLeaseStaysLost(w: World, actions: seq<Action>, token: NonEmpty)
    requires Inv(w) && AdmissibleRun(w, actions) && !Holds(w.db, token)
    requires forall a :: a in actions && TakesGate(a) ==> TakingLease(a).token != token
    ensures Inv(Run(w, actions)) && !Holds(Run(w, actions).db, token)
    decreases |actions|
  {
    if actions != [] {
      var shorter, last := actions[..|actions| - 1], actions[|actions| - 1];
      hide Inv, Step, Perform, Admissible, AdmissibleRun;
      ShorterIsAdmissible(w, actions);
      LostLeaseStaysLost(w, shorter, token);
      StepPerforms(Run(w, shorter), last);
      StepKeepsInv(Run(w, shorter), last);
      GateChangesHandsOnlyAfterExpiry(Run(w, shorter), last);
    }
  }

  /** Sending keeps the gate invariant exactly when the caller passes the pending token itself. */
  lemma SendKeepsGateIffTokensAgree(db: Db, input: SendInput)
    requires GateHeld(db) && Send(db, input).Commit?
    ensures GateHeld(Send(db, input).db) <==> input.lease.token == input.pending.value.gateToken
  {
  }

  /** A concrete send with another token that leaves the resolution under a foreign gate. */
  lemma SendWithForeignTokenBreaksGate() returns (db: Db, input: SendInput)
    ensures GateHeld(db) && Send(db, input).Commit? && !GateHeld(Send(db, input).db)
  {
    var payload := Payload("r1", "device", 0, KeepRemote, EMPTY_BATCH, false);
    var pending := Resolution("user", payload, {}, NeverSent, "tab-a", Some(None));
    db := Db(map[], {}, None, None, Some(Gate("tab-a", 0, 10, None)), Some(pending), None, Commands, None);
    input := SendInput(Context(true, None, None, true), Some(pending), "user", Lease("tab-b", 1, 10, None), true);
  }

  // ---------------------------------------------------------------- immutable requests

  /** The resolution was dropped because it belongs to another account than the acting one. */
  predicate InvalidatesForeign(db: Db, a: Action) {
    a.DoInvalidate? && db.resolution.Some? && db.resolution.value.userId != a.invalidate.user
  }

  predicate SameRequest(a: Resolution, b: Resolution) {
    a == b.(gateToken := a.gateToken)
  }

  lemma PossiblyDeliveredIsFixed(w: World, a: Action)
    requires Inv(w) && Admissible(w, a)
    requires w.db.resolution.Some? && w.db.resolution.value.state == PossiblyDelivered
    ensures var after := Perform(w.db, a).resolution;
            if after.Some? then SameRequest(after.value, w.db.resolution.value)
            else AppliesResolution(w.db, a) || InvalidatesForeign(w.db, a)
  {
    match a
    case DoMutate(_, _) => GateBlocksOrdinaryWork(w.db, a);
    case DoClaim(_) => GateBlocksOrdinaryWork(w.db, a);
    case DoDiscard(_, _) => GateBlocksOrdinaryWork(w.db, a);
    case DoSync(_) => GateBlocksOrdinaryWork(w.db, a);
    case DoMigrate(_, _, _) =>
    case DoAcquire(_, _) =>
    case DoClear(_, _) =>
    case DoCapture(_) =>
    case DoSend(_) =>
    case DoInvalidate(_) =>
    case DoApply(_) =>
    case DoNormalize(_) =>
  }

  /** No action applies the captured resolution or drops it for another account. */
  predicate Undisturbed(w: World, actions: seq<Action>) {
    forall n :: 0 <= n < |actions| ==>
      !AppliesResolution(Run(w, actions[..n]).db, actions[n])
          && !InvalidatesForeign(Run(w, actions[..n]).db, actions[n])
  }

  lemma ShorterIsUndisturbed(w: World, actions: seq<Action>)
    requires actions != [] && Undisturbed(w, actions)
    ensures var shorter, last := actions[..|actions| - 1], actions[|actions| - 1];
            Undisturbed(w, shorter) && !AppliesResolution(Run(w, shorter).db, last)
                && !InvalidatesForeign(Run(w, shorter).db, last)
  {
    hide Run, AppliesResolution, InvalidatesForeign;
    var shorter := actions[..|actions| - 1];
    forall n | 0 <= n < |shorter|
      ensures !AppliesResolution(Run(w, shorter[..n]).db, shorter[n])
          && !InvalidatesForeign(Run(w, shorter[..n]).db, shorter[n])
    {
      assert shorter[..n] == actions[..n];
    }
  }

  /** Over any run, a request that may have been delivered keeps its exact payload until its
      response is applied or another account invalidates it. */
  lemma {:induction false} PossiblyDeliveredStaysFixed(w: World, actions: seq<Action>)
    requires Inv(w) && AdmissibleRun(w, actions)
    requires w.db.resolution.Some? && w.db.resolution.value.state == PossiblyDelivered
    requires Undisturbed(w, actions)
    ensures Inv(Run(w, actions))
    ensures Run(w, actions).db.resolution.Some?
        && SameRequest(Run(w, actions).db.resolution.value, w.db.resolution.value)
    decreases |actions|
  {
    if actions != [] {
      var shorter, last := actions[..|actions| - 1], actions[|actions| - 1];
      hide Inv, Step, Perform, Admissible, AppliesResolution, InvalidatesForeign, AdmissibleRun, Undisturbed;
      ShorterIsAdmissible(w, actions);
      ShorterIsUndisturbed(w, actions);
      PossiblyDeliveredStaysFixed(w, shorter);
      StepPerforms(Run(w, shorter), last);
      StepKeepsInv(Run(w, shorter), last);
      PossiblyDeliveredIsFixed(Run(w, shorter), last);
    }
  }

  /** A claim that was just made is replayed: another tab of the same owner that claims again gets
      exactly this claim, makes no new one and changes nothing. */
  lemma ClaimIsReplayed(db: Db, input: ClaimInput, again: ClaimInput)
    requires db.outgoing.None? && ClaimBatch(db, input).Commit? && ClaimBatch(db, input).value.Some?
    requires again.ws.owner == input.ws.owner && AssertWorkspace(ClaimBatch(db, input).db, again.ws).None?
    ensures var after := ClaimBatch(db, input).db;
            ClaimBatch(after, again) == Commit(after, after.outgoing) && after.outgoing == ClaimBatch(db, input).value
  {
  }

  /** A saved claim that carries its request bytes is never altered in place: it stays as it is
      until its own response or a bootstrap resolution removes it. */
  lemma SavedClaimIsFixed(w: World, a: Action)
    requires w.db.outgoing.Some? && w.db.outgoing.value.body.Some?
    ensures var after := Perform(w.db, a).outgoing;
            after == w.db.outgoing || (after.None? && (AppliesSync(w.db, a) || AppliesResolution(w.db, a)))
    ensures AppliesSync(w.db, a) ==> a.sync.claim == w.db.outgoing
  {
    match a
    case DoMutate(_, _) =>
    case DoMigrate(_, _, _) =>
    case DoClaim(_) =>
    case DoDiscard(_, _) =>
    case DoSync(_) =>
    case DoAcquire(_, _) =>
    case DoClear(_, _) =>
    case DoCapture(_) =>
    case DoSend(_) =>
    case DoInvalidate(_) =>
    case DoApply(_) =>
    case DoNormalize(_) =>
  }

  // ---------------------------------------------------------------- sync responses

  /** A response whose claim is not the saved one writes nothing; a response older than the stored
      snapshot writes at most the clock sample; only an accepted one moves the snapshot, forward. */
  lemma SyncResponseEffects(db: Db, input: SyncInput)
    ensures var after := ApplySync(db, input).After(db);
            && (input.claim != db.outgoing ==> after == db)
            && (ApplySync(db, input).Commit? && ApplySync(db, input).value == Stale ==>
                  after == db.(clock := after.clock))
            && (AppliesSync(db, DoSync(input)) ==>
                  && input.claim == db.outgoing && after.outgoing.None? && after.snapshot == Some(input.snapshot)
                  && db.snapshot.Some? && db.snapshot.value.revision <= input.snapshot.revision
                  && OwnerOf(after.snapshot) == OwnerOf(db.snapshot))
            && (!AppliesSync(db, DoSync(input)) ==> after == db.(clock := after.clock))
  {
  }

  lemma RevisionStep(w: World, a: Action)
    requires w.db.snapshot.Some? && !AppliesResolution(w.db, a)
    ensures var after := Perform(w.db, a).snapshot;
            after.Some? && w.db.snapshot.value.revision <= after.value.revision
            && after.value.owner == w.db.snapshot.value.owner
  {
    match a
    case DoSync(input) => SyncResponseEffects(w.db, input);
    case DoApply(input) =>
    case _ =>
  }

  /** Between two applied bootstrap resolutions the stored revision never decreases and the
      account never changes, in every run. */
  lemma {:induction false} RevisionsNeverDecrease(w: World, actions: seq<Action>)
    requires w.db.snapshot.Some?
    requires forall n :: 0 <= n < |actions| ==> !AppliesResolution(Run(w, actions[..n]).db, actions[n])
    ensures var after := Run(w, actions).db.snapshot;
            after.Some? && w.db.snapshot.value.revision <= after.value.revision
            && after.value.owner == w.db.snapshot.value.owner
    decreases |actions|
  {
    if actions != [] {
      var shorter := actions[..|actions| - 1];
      assert forall n :: 0 <= n < |shorter| ==> shorter[..n] == actions[..n];
      RevisionsNeverDecrease(w, shorter);
      RevisionStep(Run(w, shorter), actions[|actions| - 1]);
    }
  }

  // ---------------------------------------------------------------- what happens to queued work

  /** Applying a sync response removes only acknowledged records and timer commands the Core
      dropped. Every other record stays, unchanged unless the Core's rebased queues restate it,
      even when those queues omit it. */
  lemma NoQueuedWorkIsLost(db: Db, input: SyncInput, k: Key)
    requires AppliesSync(db, DoSync(input)) && k in db.queues
    requires k !in ListedKeys(input.acknowledged)
    requires !(k.domain == Commands && k.id in input.rebased.plan.dropped)
    ensures var after := ApplySync(db, input).db.queues;
            k in after && (k !in BatchKeys(input.rebased.plan.queues) ==> after[k] == db.queues[k])
  {
    var rebased := input.rebased.plan;
    PutBatchMeaning(db.queues - ListedKeys(input.acknowledged) - DomainKeys(Commands, rebased.dropped), rebased.queues);
  }

  /** An apply with a reconciliation leaves exactly its keys. Without one it takes away exactly the
      captured and the dropped records: work queued after the capture stays as it was. */
  lemma ApplyQueuesExactly(db: Db, input: ApplyInput)
    requires AppliesResolution(db, DoApply(input))
    ensures var r, after := input.replacement.plan, ApplyResolution(db, input).db.queues;
            after.Keys == match r
                          case Reconciled(queues) => BatchKeys(queues)
                          case Retained(_, _, dropped) =>
                            db.queues.Keys - input.pending.queued + BatchKeys(r.Items()) - DomainKeys(Commands, dropped)
    ensures var r, after := input.replacement.plan, ApplyResolution(db, input).db.queues;
            r.Retained? ==>
              var touched := input.pending.queued + BatchKeys(r.Items()) + DomainKeys(Commands, r.dropped);
              forall k :: k in db.queues && k !in touched ==> k in after && after[k] == db.queues[k]
  {
    var r := input.replacement.plan;
    PutBatchMeaning(map[], r.Items());
    PutBatchMeaning(db.queues - input.pending.queued, r.Items());
    hide PutBatch, BatchKeys, DomainKeys, KeyPath;
  }

  /** Outside acknowledged records, drops and the rebased batch, sync invents and loses nothing. */
  lemma SyncQueuesExactly(db: Db, input: SyncInput)
    requires AppliesSync(db, DoSync(input))
    ensures ApplySync(db, input).db.queues.Keys ==
            db.queues.Keys - ListedKeys(input.acknowledged) - DomainKeys(Commands, input.rebased.plan.dropped)
            + BatchKeys(input.rebased.plan.queues)
  {
    var rebased := input.rebased.plan;
    PutBatchMeaning(db.queues - ListedKeys(input.acknowledged) - DomainKeys(Commands, rebased.dropped), rebased.queues);
  }

  /** The two rewrites of legacy durations touch only records that were never exposed to the
      network: a changed record is a duration outside the exposed set, and only its time changes. */
  lemma RewritesOnlyNeverSent(w: World, a: Action, k: Key)
    requires Inv(w) && (a.DoNormalize? || a.DoCapture?)
    requires k in w.db.queues
    ensures var after := Perform(w.db, a).queues;
            && after.Keys == w.db.queues.Keys
            && (after[k] != w.db.queues[k] ==>
                  k.domain == DurationOperations && k !in w.exposed
                  && after[k] == w.db.queues[k].(occurredAt := LEGACY_EPOCH))
  {
    if a.DoCapture? && a.capture.reply.Planned? && Capture(w.db, a.capture).Commit? {
      var ids := a.capture.reply.plan.selected.durationOperations;
      if k in DomainKeys(DurationOperations, ids) && NeedsCanonicalTime(w.db.queues[k]) {
        var i :| 0 <= i < |ids| && k == Key(DurationOperations, ids[i]);
      }
    } else if a.DoNormalize? && Normalize(w.db, a.normalize).Commit? {
      assert k in LegacyDurations(w.db.queues) ==> k in w.db.proof;
    }
  }
}
