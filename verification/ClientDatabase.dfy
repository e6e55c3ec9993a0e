/** The database as the mutable object the app works on: each transaction puts, deletes and clears
    records in loops and rewrites metadata, and either finishes or restores what it touched. Every
    method leaves exactly the state that `ClientStore` gives as the transaction's meaning. */
module ClientDatabase {
  import opened Wire
  import opened ClientStore
  import Clock = ClockSamples

  /** What a caller sees of a finished or aborted transaction. */
  function Outcome<T>(tx: Tx<T>): Result<T, StoreError> {
    match tx case Commit(_, value) => Success(value) case Abort(error) => Failure(error)
  }

  /** `items` can be added to a store: new keys only, and no ID twice. */
  predicate Addable(queues: Queues, d: Domain, items: seq<Operation>) {
    (forall i :: 0 <= i < |items| ==> Key(d, items[i].id) !in queues)
    && forall i, j :: 0 <= i < j < |items| ==> items[i].id != items[j].id
  }

  lemma DomainsDiffer(n: nat)
    requires n < |DOMAINS|
    ensures DOMAINS[n] !in DOMAINS[..n] && DOMAINS[..n + 1] == DOMAINS[..n] + [DOMAINS[n]]
  {
    assert DOMAINS[0] == Commands && DOMAINS[1] == TaskOperations && DOMAINS[2] == DurationOperations
        && DOMAINS[3] == AutoStartOperations && DOMAINS[4] == SelectedTaskOperations;
  }

  /** One more item can be added exactly when its key is not in the store as filled so far. */
  lemma AddableStep(queues: Queues, d: Domain, items: seq<Operation>, i: nat)
    requires i < |items| && Addable(queues, d, items[..i])
    ensures Key(d, items[i].id) !in PutItems(queues, d, items[..i]) <==> Addable(queues, d, items[..i + 1])
    ensures Key(d, items[i].id) in PutItems(queues, d, items[..i]) ==> !Addable(queues, d, items)
    ensures PutItems(queues, d, items[..i + 1]) == PutItems(queues, d, items[..i])[Key(d, items[i].id) := items[i]]
  {
    assert items[..i + 1][..i] == items[..i];
    PutItemsMeaning(queues, d, items[..i], Key(d, items[i].id));
    hide PutItems;
    assert forall j :: 0 <= j < i ==> items[..i][j].id == items[j].id;
    if j :| 0 <= j < i && items[j].id == items[i].id { assert items[..i][j].id == items[i].id; }
  }

  /** Puts in one domain and deletions in others commute. */
  lemma {:induction false} PutItemsMinus(queues: Queues, d: Domain, items: seq<Operation>, gone: set<Key>)
    requires forall k :: k in gone ==> k.domain != d
    ensures PutItems(queues, d, items) - gone == PutItems(queues - gone, d, items)
    decreases |items|
  {
    if items != [] {
      PutItemsMinus(queues, d, items[..|items| - 1], gone);
    }
  }

  lemma PutDomainsStep(queues: Queues, b: Batch, n: nat)
    requires n < |DOMAINS|
    ensures PutDomains(queues, b, n + 1) == PutItems(PutDomains(queues, b, n), DOMAINS[n], b.Of(DOMAINS[n]))
  {
  }

  lemma PutDomainsMinus(queues: Queues, b: Batch, n: nat, gone: set<Key>)
    requires n <= |DOMAINS| && forall k :: k in gone ==> k.domain !in DOMAINS[..n]
    ensures PutDomains(queues, b, n) - gone == PutDomains(queues - gone, b, n)
  {
    hide PutDomains;
    forall k, i | k in gone && 0 <= i < n ensures k.domain != DOMAINS[i] { assert DOMAINS[..n][i] == DOMAINS[i]; }
    OthersMinus(queues, b, n, gone);
  }

  lemma {:induction false} OthersMinus(queues: Queues, b: Batch, n: nat, gone: set<Key>)
    requires n <= |DOMAINS| && forall k, i :: k in gone && 0 <= i < n ==> k.domain != DOMAINS[i]
    ensures PutDomains(queues, b, n) - gone == PutDomains(queues - gone, b, n)
  {
    if n > 0 {
      PutDomainsStep(queues, b, n - 1);
      PutDomainsStep(queues - gone, b, n - 1);
      hide PutItems, PutDomains;
      OthersMinus(queues, b, n - 1, gone);
      PutItemsMinus(PutDomains(queues, b, n - 1), DOMAINS[n - 1], b.Of(DOMAINS[n - 1]), gone);
    }
  }

  /** The keys of the first n domains. */
  function UpTo(keys: set<Key>, n: nat): set<Key>
    requires n <= |DOMAINS|
  {
    set k | k in keys && k.domain in DOMAINS[..n]
  }

  function InDomain(keys: set<Key>, d: Domain): set<Key> {
    set k | k in keys && k.domain == d
  }

  lemma ListedInDomain(ids: IdLists, d: Domain)
    ensures InDomain(ListedKeys(ids), d) == DomainKeys(d, ids.Of(d))
  {
  }

  lemma UpToEnds(keys: set<Key>)
    ensures UpTo(keys, 0) == {} && UpTo(keys, |DOMAINS|) == keys
  {
    forall k | k in keys ensures k.domain in DOMAINS[..|DOMAINS|] { DomainsAreAll(k.domain); }
  }

  /** Adding a batch domain by domain succeeds exactly when the whole batch is new and distinct. */
  lemma AddableByDomain(queues: Queues, b: Batch)
    ensures (forall n :: 0 <= n < |DOMAINS| ==> Addable(queues, DOMAINS[n], b.Of(DOMAINS[n]))) <==>
            DistinctIds(b) && BatchKeys(b) * queues.Keys == {}
  {
    if forall n :: 0 <= n < |DOMAINS| ==> Addable(queues, DOMAINS[n], b.Of(DOMAINS[n])) {
      forall d: Domain ensures Addable(queues, d, b.Of(d)) {
        DomainsAreAll(d);
        var n :| 0 <= n < |DOMAINS| && DOMAINS[n] == d;
      }
      assert forall k :: k in BatchKeys(b) ==> k !in queues;
    } else {
      var n :| 0 <= n < |DOMAINS| && !Addable(queues, DOMAINS[n], b.Of(DOMAINS[n]));
      var d := DOMAINS[n];
      if i :| 0 <= i < |b.Of(d)| && Key(d, b.Of(d)[i].id) in queues {
        assert Key(d, b.Of(d)[i].id) in BatchKeys(b) * queues.Keys;
      }
    }
  }

  /** The stores of the domains written so far do not reach into the next one. */
  lemma NextDomainUntouched(queues: Queues, b: Batch, n: nat)
    requires n < |DOMAINS|
    ensures Addable(PutDomains(queues, b, n), DOMAINS[n], b.Of(DOMAINS[n]))
        <==> Addable(queues, DOMAINS[n], b.Of(DOMAINS[n]))
  {
    DomainsDiffer(n);
    forall i | 0 <= i < |b.Of(DOMAINS[n])|
      ensures Key(DOMAINS[n], b.Of(DOMAINS[n])[i].id) in PutDomains(queues, b, n)
          <==> Key(DOMAINS[n], b.Of(DOMAINS[n])[i].id) in queues
    {
      PutDomainsMeaning(queues, b, n, Key(DOMAINS[n], b.Of(DOMAINS[n])[i].id));
    }
  }

  /** One domain of a replacement: delete the named records, put the new ones. */
  lemma DomainStep(before: Queues, keys: set<Key>, b: Batch, n: nat)
    requires n < |DOMAINS|
    ensures var d := DOMAINS[n];
            PutItems(PutDomains(before - UpTo(keys, n), b, n) - InDomain(keys, d), d, b.Of(d))
            == PutDomains(before - UpTo(keys, n + 1), b, n + 1)
  {
    DomainsDiffer(n);
    var gone := InDomain(keys, DOMAINS[n]);
    PutDomainsMinus(before - UpTo(keys, n), b, n, gone);
    assert UpTo(keys, n + 1) == UpTo(keys, n) + gone;
    assert before - UpTo(keys, n) - gone == before - UpTo(keys, n + 1);
  }

  /** The timer-command domain of a sync, where the Core's drops are deleted as well. */
  lemma SyncFirstDomain(before: Queues, keys: set<Key>, b: Batch, dropped: set<Key>)
    ensures PutItems(before - InDomain(keys, Commands) - dropped, Commands, b.commands)
            == PutDomains(before - dropped - UpTo(keys, 1), b, 1)
  {
    hide PutItems, InDomain;
    FirstDomain(before - dropped, keys, b);
    RemovedInEitherOrder(before, InDomain(keys, Commands), dropped);
  }

  lemma FirstDomain(before: Queues, keys: set<Key>, b: Batch)
    ensures PutItems(before - InDomain(keys, Commands), Commands, b.commands)
            == PutDomains(before - UpTo(keys, 1), b, 1)
  {
    UpToEnds(keys);
    DomainStep(before, keys, b, 0);
    hide PutItems, UpTo, InDomain;
    assert before - {} == before;
    assert DOMAINS[0] == Commands && b.Of(Commands) == b.commands;
  }

  lemma RemovedInEitherOrder(queues: Queues, a: set<Key>, b: set<Key>)
    ensures queues - a - b == queues - b - a
  {
  }

  lemma SyncLastDomain(before: Queues, ids: IdLists, rebased: Rebased)
    ensures var kept := before - DomainKeys(Commands, rebased.dropped);
            PutDomains(kept - UpTo(ListedKeys(ids), |DOMAINS|), rebased.queues, |DOMAINS|)
            == SyncQueues(before, ids, rebased)
  {
    UpToEnds(ListedKeys(ids));
    RemovedInEitherOrder(before, DomainKeys(Commands, rebased.dropped), ListedKeys(ids));
  }

  /** A further domain leaves the dropped timer commands alone. */
  lemma RetainedDomainStep(before: Queues, keys: set<Key>, b: Batch, n: nat, dropped: set<Key>)
    requires 1 <= n < |DOMAINS| && forall k :: k in dropped ==> k.domain == Commands
    ensures var d := DOMAINS[n];
            PutItems(PutDomains(before - UpTo(keys, n), b, n) - dropped - InDomain(keys, d), d, b.Of(d))
            == PutDomains(before - UpTo(keys, n + 1), b, n + 1) - dropped
  {
    var filled, gone := PutDomains(before - UpTo(keys, n), b, n), InDomain(keys, DOMAINS[n]);
    assert DOMAINS[n] != Commands by {
      DomainsDiffer(n);
      assert DOMAINS[..n][0] == Commands;
    }
    DomainStep(before, keys, b, n);
    PutItemsMinus(filled - gone, DOMAINS[n], b.Of(DOMAINS[n]), dropped);
    RemovedInEitherOrder(filled, gone, dropped);
  }

  /** The records whose domains have not been cleared yet. */
  function Uncleared(queues: Queues, n: nat): Queues
    requires n <= |DOMAINS|
  {
    map k | k in queues && k.domain !in DOMAINS[..n] :: queues[k]
  }

  lemma ClearDomainStep(before: Queues, b: Batch, n: nat)
    requires n < |DOMAINS|
    ensures (map k | k in PutDomains(Uncleared(before, n), b, n)
        && k.domain != DOMAINS[n] :: PutDomains(Uncleared(before, n), b, n)[k])
            == PutDomains(Uncleared(before, n + 1), b, n)
  {
    DomainsDiffer(n);
    var d, kept := DOMAINS[n], Uncleared(before, n);
    var filled := PutDomains(kept, b, n);
    var gone := set k | k in kept && k.domain == d;
    PutDomainsMinus(kept, b, n, gone);
    forall k: Key ensures k in filled && k.domain == d <==> k in gone { PutDomainsMeaning(kept, b, n, k); }
    hide PutDomains;
    assert kept - gone == Uncleared(before, n + 1) by { UnclearedStep(before, n); }
    OnlyOthers(filled, d, gone);
  }

  lemma UnclearedStep(before: Queues, n: nat)
    requires n < |DOMAINS|
    ensures Uncleared(before, n) - (set k | k in Uncleared(before, n) && k.domain == DOMAINS[n])
        == Uncleared(before, n + 1)
  {
    DomainsDiffer(n);
  }

  lemma OnlyOthers(m: Queues, d: Domain, gone: set<Key>)
    requires forall k: Key :: k in m && k.domain == d <==> k in gone
    ensures (map k | k in m && k.domain != d :: m[k]) == m - gone
  {
  }

  lemma OneMoreId(ids: seq<string>, i: nat)
    requires i < |ids|
    ensures DomainKeys(DurationOperations, ids[..i + 1])
        == DomainKeys(DurationOperations, ids[..i]) + {Key(DurationOperations, ids[i])}
  {
    assert ids[..i + 1] == ids[..i] + [ids[i]];
  }

  lemma UnclearedEnds(queues: Queues)
    ensures Uncleared(queues, 0) == queues && Uncleared(queues, |DOMAINS|) == map[]
  {
    forall k: Key ensures k.domain in DOMAINS[..|DOMAINS|] { DomainsAreAll(k.domain); }
  }

  class Database {
    var queues: Queues
    var proof: set<Key>
    var outgoing: Option<Claim>
    var snapshot: Option<Snapshot>
    var gate: Option<Gate>
    var resolution: Option<Resolution>
    var deviceId: Option<string>
    var nextDomain: Domain
    var clock: Option<Clock.Sample>

    function State(): Db
      reads this
    {
      Db(queues, proof, outgoing, snapshot, gate, resolution, deviceId, nextDomain, clock)
    }

    constructor Open(db: Db)
      ensures State() == db
    {
      queues, proof, outgoing, snapshot := db.queues, db.proof, db.outgoing, db.snapshot;
      gate, resolution, deviceId, nextDomain, clock := db.gate, db.resolution, db.deviceId, db.nextDomain, db.clock;
    }

    // -------------------------------------------------------------- object stores

    method PutAll(d: Domain, items: seq<Operation>)
      modifies this`queues
      ensures queues == PutItems(old(queues), d, items)
    {
      for i := 0 to |items|
        invariant queues == PutItems(old(queues), d, items[..i])
      {
        assert items[..i + 1][..i] == items[..i];
        queues := queues[Key(d, items[i].id) := items[i]];
      }
      assert items[..|items|] == items;
    }

    method DeleteKeys(keys: set<Key>)
      modifies this`queues
      ensures queues == old(queues) - keys
    {
      var left := keys;
      while left != {}
        invariant left <= keys && queues == old(queues) - (keys - left)
        decreases |left|
      {
        var k :| k in left;
        queues := queues - {k};
        left := left - {k};
      }
    }

    /** Adding refuses a key that is already there; the transaction then aborts. */
    method AddAll(d: Domain, items: seq<Operation>) returns (ok: bool)
      modifies this`queues
      ensures ok <==> Addable(old(queues), d, items)
      ensures ok ==> queues == PutItems(old(queues), d, items)
    {
      ghost var before := queues;
      for i := 0 to |items|
        invariant queues == PutItems(before, d, items[..i]) && Addable(before, d, items[..i])
      {
        AddableStep(before, d, items, i);
        hide PutItems, Addable;
        if Key(d, items[i].id) in queues { return false; }
        queues := queues[Key(d, items[i].id) := items[i]];
      }
      assert items[..|items|] == items;
      ok := true;
    }

    /** Adding a whole batch, domain by domain; a refusal takes back what was added. */
    method AddBatch(b: Batch) returns (ok: bool)
      modifies this`queues
      ensures ok <==> DistinctIds(b) && BatchKeys(b) * old(queues).Keys == {}
      ensures queues == if ok then PutBatch(old(queues), b) else old(queues)
    {
      var before := queues;
      AddableByDomain(before, b);
      hide Addable, DistinctIds, BatchKeys;
      for n := 0 to |DOMAINS|
        invariant queues == PutDomains(before, b, n)
        invariant forall m :: 0 <= m < n ==> Addable(before, DOMAINS[m], b.Of(DOMAINS[m]))
      {
        NextDomainUntouched(before, b, n);
        var added := AddAll(DOMAINS[n], b.Of(DOMAINS[n]));
        if !added {
          queues := before;
          return false;
        }
      }
      ok := true;
    }

    method DeleteAll(d: Domain, ids: seq<string>)
      modifies this`queues
      ensures queues == old(queues) - DomainKeys(d, ids)
    {
      for i := 0 to |ids|
        invariant queues == old(queues) - DomainKeys(d, ids[..i])
      {
        assert ids[..i + 1] == ids[..i] + [ids[i]];
        queues := queues - {Key(d, ids[i])};
      }
      assert ids[..|ids|] == ids;
    }

    /** persistReconciledQueue for one domain. */
    method PersistReconciled(d: Domain, captured: seq<string>, retained: seq<Operation>)
      modifies this`queues
      ensures queues == PutItems(old(queues) - DomainKeys(d, captured), d, retained)
    {
      DeleteAll(d, captured);
      PutAll(d, retained);
    }

    method SaveClock(incoming: Option<Clock.Sample>)
      modifies this`clock
      ensures State() == WithClock(old(State()), incoming)
    {
      if incoming.Some? && Clock.Replaces(clock, incoming.value) {
        clock := incoming;
      }
    }

    // -------------------------------------------------------------- transactions

    /** planWorkspaceMutation with writePlan */
    method MutateWorkspace(ws: Workspace, reply: CoreReply<MutationPlan>) returns (r: Result<bool, StoreError>)
      modifies this
      ensures State() == Mutate(old(State()), ws, reply).After(old(State()))
      ensures r == Outcome(Mutate(old(State()), ws, reply))
    {
      var failed := AssertWorkspace(State(), ws);
      if failed.Some? { return Failure(failed.value); }
      match reply
      case Rejected => return Failure(CoreRejected);
      case Noop => return Success(false);
      case Planned(plan) =>
        var added := AddBatch(plan.added);
        if !added { return Failure(DuplicateKey); }
        DeleteAll(DurationOperations, plan.retired);
        proof := plan.neverSent;
        if deviceId.None? {
          deviceId := Some(ws.deviceId);
          if snapshot.None? { snapshot := Some(Snapshot(None, 0, plan.base)); }
        }
        return Success(true);
    }

    /** The shared tail of claiming and discarding; the caller restores a dropped claim on failure. */
    method MakeClaim(input: ClaimInput) returns (r: Result<Option<Claim>, StoreError>)
      modifies this`proof, this`outgoing, this`nextDomain
      ensures State() == NewClaim(old(State()), input).After(old(State()))
      ensures r == Outcome(NewClaim(old(State()), input))
    {
      match input.reply
      case Rejected => return Failure(CoreRejected);
      case Noop => return Success(None);
      case Planned(plan) =>
        if !AllQueued(plan.selected, queues) { return Failure(CoreRejected); }
        if snapshot.None? { return Failure(InvalidRequest); }
        var sent := SentBatch(plan.selected, queues);
        var claim := Claim(Some(input.claimId), sent, input.ws.owner, input.now,
                           Some(Body(deviceId, snapshot.value.revision, sent)));
        if !input.stillCurrent { return Failure(AccountOwnership); }
        proof := RemoveProof(proof, sent);
        outgoing := Some(claim);
        nextDomain := plan.nextDomain;
        return Success(outgoing);
    }

    /** claimWorkspaceBatch */
    method ClaimWorkspaceBatch(input: ClaimInput) returns (r: Result<Option<Claim>, StoreError>)
      modifies this
      ensures State() == ClaimBatch(old(State()), input).After(old(State()))
      ensures r == Outcome(ClaimBatch(old(State()), input))
    {
      var failed := AssertWorkspace(State(), input.ws);
      if failed.Some? { return Failure(failed.value); }
      if outgoing.Some? {
        var saved := outgoing.value;
        if ForeignClaim(saved, input.ws.owner) { return Failure(AccountOwnership); }
        if input.replayOk && saved.body.Some?
          && (saved.body.value.deviceId != deviceId
                 || saved.body.value.sent != saved.sent) { return Failure(InvalidRequest); }
        return Success(outgoing);
      }
      r := MakeClaim(input);
    }

    /** discardUnrecoverableSavedClaim */
    method DiscardSavedClaim(input: ClaimInput, confirmed: bool) returns (r: Result<Option<Claim>, StoreError>)
      modifies this
      ensures State() == DiscardClaim(old(State()), input, confirmed).After(old(State()))
      ensures r == Outcome(DiscardClaim(old(State()), input, confirmed))
    {
      var failed := AssertWorkspace(State(), input.ws);
      if failed.Some? { return Failure(failed.value); }
      if !confirmed || outgoing.None? || outgoing.value.body.Some? { return Failure(InvalidRequest); }
      if ForeignClaim(outgoing.value, input.ws.owner) { return Failure(AccountOwnership); }
      var saved := outgoing;
      outgoing := None;
      r := MakeClaim(input);
      if r.Failure? { outgoing := saved; }
    }

    /** applySyncResponse: planSyncResponse and persistSyncResponsePlan in one transaction. */
    method ApplySyncResponse(input: SyncInput) returns (r: Result<SyncOutcome, StoreError>)
      modifies this
      ensures State() == ApplySync(old(State()), input).After(old(State()))
      ensures r == Outcome(ApplySync(old(State()), input))
    {
      if input.claim.Some? {
        var invalid := ClaimError(input.claim.value, input.sent, input.expectedUser, input.deviceId);
        if invalid.Some? { return Failure(invalid.value); }
      }
      if input.clock.Some? && !Clock.Valid(input.clock.value) { return Failure(ClockRange); }
      if !input.current || input.expectedUser.None? || OwnerOf(snapshot) != input.expectedUser
         || input.snapshot.owner != input.expectedUser { return Failure(AccountOwnership); }
      if gate.Some? || resolution.Some? { return Failure(BootstrapGate); }
      if !input.serverTimeOk { return Failure(InvalidRequest); }
      if outgoing != input.claim { return Success(Ignored); }
      if !input.displayOk { return Failure(DisplayContext); }
      if snapshot.value.revision > input.snapshot.revision {
        SaveClock(input.clock);
        return Success(Stale);
      }
      match input.rebased
      case Noop => return Failure(CoreRejected);
      case Rejected => return Failure(CoreRejected);
      case Planned(rebased) =>
        PersistRebasedQueues(input.acknowledged, rebased);
        SaveClock(input.clock);
        snapshot := Some(input.snapshot);
        outgoing := None;
        var sent := if input.sent.Some? then BatchKeys(input.sent.value) else {};
        proof := NeverSentFromProof(proof, BatchKeys(rebased.queues), sent);
        return Success(Applied);
    }

    /** The queue part of persistSyncResponsePlan: domain by domain, delete what was acknowledged
        (and for timer commands what the Core dropped), then put the rebased records. */
    method PersistRebasedQueues(acknowledged: IdLists, rebased: Rebased)
      modifies this`queues
      ensures queues == SyncQueues(old(queues), acknowledged, rebased)
    {
      hide PutItems, PutDomains, UpTo, InDomain, DomainKeys, SyncQueues;
      ghost var before, dropped, keys := queues, DomainKeys(Commands, rebased.dropped), ListedKeys(acknowledged);
      ListedInDomain(acknowledged, Commands);
      DeleteAll(Commands, acknowledged.commands);
      DeleteAll(Commands, rebased.dropped);
      PutAll(Commands, rebased.queues.commands);
      SyncFirstDomain(before, keys, rebased.queues, dropped);
      for n := 1 to |DOMAINS|
        invariant queues == PutDomains(before - dropped - UpTo(keys, n), rebased.queues, n)
      {
        ListedInDomain(acknowledged, DOMAINS[n]);
        PersistReconciled(DOMAINS[n], acknowledged.Of(DOMAINS[n]), rebased.queues.Of(DOMAINS[n]));
        DomainStep(before - dropped, keys, rebased.queues, n);
      }
      SyncLastDomain(before, acknowledged, rebased);
    }

    /** acquireBootstrapGate */
    method AcquireBootstrapGate(ctx: Context, lease: Lease) returns (r: Result<GateOutcome, StoreError>)
      modifies this`gate, this`resolution
      ensures State() == AcquireGate(old(State()), ctx, lease).After(old(State()))
      ensures r == Outcome(AcquireGate(old(State()), ctx, lease))
    {
      var failed := AssertMetadata(State(), ctx.(currentUser := None));
      if failed.Some? { return Failure(failed.value); }
      if gate.Some? && gate.value.accountOwner.Some? && lease.user.Some? && gate.value.accountOwner != lease.user {
        return Success(GateOutcome(false, false));
      }
      if (gate.None? || gate.value.token != lease.token) && LeaseIsLive(gate, lease.now) {
        return Success(GateOutcome(false, false));
      }
      var takenOver := gate.Some? && gate.value.token != lease.token;
      if resolution.Some? && resolution.value.gateToken != lease.token {
        resolution := Some(resolution.value.(gateToken := lease.token));
      }
      gate := Some(BoundLease(lease));
      return Success(GateOutcome(true, takenOver));
    }

    /** The rewriting loop of persistCapturedDurationEncoding. */
    method RewriteSelected(ids: seq<string>)
      requires Queued(ids, DurationOperations, queues)
      modifies this`queues
      ensures queues == RewriteDurations(old(queues), DomainKeys(DurationOperations, ids))
    {
      var retained := queues;
      for i := 0 to |ids|
        invariant queues == RewriteDurations(retained, DomainKeys(DurationOperations, ids[..i]))
      {
        OneMoreId(ids, i);
        var k := Key(DurationOperations, ids[i]);
        if NeedsCanonicalTime(retained[k]) {
          queues := queues[k := retained[k].(occurredAt := LEGACY_EPOCH)];
        }
      }
      assert ids[..|ids|] == ids;
    }

    /** captureResolution, with persistCapturedDurationEncoding as a loop over the encoded batch. */
    method CaptureResolution(input: CaptureInput) returns (r: Result<Resolution, StoreError>)
      modifies this`queues, this`resolution
      ensures State() == Capture(old(State()), input).After(old(State()))
      ensures r == Outcome(Capture(old(State()), input))
    {
      var failed := ValidateCapture(State(), input);
      if failed.Some? { return Failure(failed.value); }
      if !input.ctx.displayOk { return Failure(DisplayContext); }
      match input.reply
      case Rejected => return Failure(CoreRejected);
      case Noop => return Failure(ResolutionLimit);
      case Planned(plan) =>
        var planning := if input.strategy == KeepRemote then map[] else queues;
        if !AllQueued(plan.selected, planning) { return Failure(CoreRejected); }
        assert Queued(plan.selected.Of(DurationOperations), DurationOperations, planning);
        var retained, ids := queues, plan.selected.durationOperations;
        var rewrites := RewritesUnproven(State(), ids);
        if rewrites { return Failure(BootstrapGate); }
        RewriteSelected(ids);
        var autoStart := input.autoStartPresent || exists k :: k in retained && k.domain == AutoStartOperations;
        var payload := Payload(input.requestId, input.deviceId, input.expectedRevision, input.strategy,
                               SentBatch(plan.selected, planning), autoStart);
        var source := Some(OwnerOf(snapshot));
        resolution := Some(Resolution(input.userId, payload, retained.Keys, NeverSent, input.gateToken, source));
        return Success(resolution.value);
    }

    /** validatePendingForSend */
    method ValidatePendingForSend(input: SendInput) returns (r: Result<Resolution, StoreError>)
      modifies this`proof, this`gate, this`resolution
      ensures State() == Send(old(State()), input).After(old(State()))
      ensures r == Outcome(Send(old(State()), input))
    {
      var failed := AssertMetadata(State(), input.ctx.(currentUser := Some(input.user)));
      if failed.Some? { return Failure(failed.value); }
      if input.pending.None? || input.pending.value.userId != input.user
          || resolution != input.pending { return Failure(BootstrapGate); }
      failed := ValidateApply(State(), resolution.value);
      if failed.Some? { return Failure(failed.value); }
      if !input.replayOk { return Failure(BootstrapGate); }
      resolution := Some(resolution.value.(state := PossiblyDelivered));
      proof := RemoveProof(proof, resolution.value.payload.ops);
      gate := Some(BoundLease(input.lease.(user := Some(input.user))));
      return Success(resolution.value);
    }

    /** applyResolution */
    method ApplyPendingResolution(input: ApplyInput) returns (r: Result<ApplyOutcome, StoreError>)
      modifies this
      ensures State() == ApplyResolution(old(State()), input).After(old(State()))
      ensures r == Outcome(ApplyResolution(old(State()), input))
    {
      if input.clock.Some? && !Clock.Valid(input.clock.value) { return Failure(ClockRange); }
      if !input.current || input.snapshot.owner != Some(input.pending.userId) { return Failure(AccountOwnership); }
      if !input.displayOk { return Failure(DisplayContext); }
      if IsStaleSuccess(State(), input.pending, input.snapshot) {
        if !input.stillCurrent { return Failure(AccountOwnership); }
        SaveClock(input.clock);
        return Success(StaleSuccess);
      }
      var refused := ValidateApply(State(), input.pending);
      if refused.Some? { return Failure(refused.value); }
      match input.replacement
      case Rejected => return Failure(CoreRejected);
      case Noop => return Failure(CoreRejected);
      case Planned(replacement) =>
        if !input.stillCurrent { return Failure(AccountOwnership); }
        if replacement.Reconciled? {
          ReplaceQueues(replacement.queues);
        } else {
          RetainQueues(input.pending.queued, replacement);
        }
        SaveClock(input.clock);
        snapshot := Some(input.snapshot);
        proof := replacement.Proof(proof, BatchKeys(input.pending.payload.ops));
        outgoing, resolution, gate := None, None, None;
        return Success(ResolutionApplied);
    }

    /** applyResolutionQueues without a reconciliation: domain by domain, delete what was captured and
        put what is retained; of the timer commands the promoted ones, less the dropped ones. */
    method RetainQueues(captured: set<Key>, replacement: Replacement)
      requires replacement.Retained?
      modifies this`queues
      ensures queues == replacement.Queues(old(queues), captured)
    {
      hide PutItems, PutDomains, UpTo, InDomain, DomainKeys;
      ghost var before, dropped := queues, DomainKeys(Commands, replacement.dropped);
      var items := replacement.Items();
      DeleteKeys(InDomain(captured, Commands));
      PutAll(Commands, replacement.promoted);
      DeleteAll(Commands, replacement.dropped);
      FirstDomain(before, captured, items);
      for n := 1 to |DOMAINS|
        invariant queues == PutDomains(before - UpTo(captured, n), items, n) - dropped
      {
        RetainedDomainStep(before, captured, items, n, dropped);
        DeleteKeys(InDomain(captured, DOMAINS[n]));
        PutAll(DOMAINS[n], items.Of(DOMAINS[n]));
      }
      UpToEnds(captured);
    }

    /** applyResolutionQueues with one: every store is cleared and refilled. */
    method ReplaceQueues(rebased: Batch)
      modifies this`queues
      ensures queues == PutBatch(map[], rebased)
    {
      ghost var before := queues;
      UnclearedEnds(before);
      for n := 0 to |DOMAINS|
        invariant queues == PutDomains(Uncleared(before, n), rebased, n)
      {
        ClearDomainStep(before, rebased, n);
        queues := map k | k in queues && k.domain != DOMAINS[n] :: queues[k];
        PutAll(DOMAINS[n], rebased.Of(DOMAINS[n]));
      }
    }

    /** clearBootstrapGate */
    method ClearBootstrapGate(ctx: Context, token: NonEmpty) returns (r: Result<(), StoreError>)
      modifies this`gate
      ensures State() == ClearGate(old(State()), ctx, token).After(old(State()))
      ensures r == Outcome(ClearGate(old(State()), ctx, token))
    {
      var failed := AssertMetadata(State(), ctx);
      if failed.Some? { return Failure(failed.value); }
      if resolution.Some? || gate.None? || gate.value.token != token { return Failure(BootstrapGate); }
      gate := None;
      return Success(());
    }

    /** invalidateForeignResolution */
    method InvalidateForeignResolution(input: InvalidateInput) returns (r: Result<InvalidateOutcome, StoreError>)
      modifies this`gate, this`resolution
      ensures State() == Invalidate(old(State()), input).After(old(State()))
      ensures r == Outcome(Invalidate(old(State()), input))
    {
      var failed := AssertMetadata(State(), input.ctx.(currentUser := None));
      if failed.Some? { return Failure(failed.value); }
      if gate.Some? && gate.value.accountOwner.Some? && gate.value.accountOwner.value != input.user
         && input.binding != Some(AccountBinding(Some(input.user), gate.value.accountOwner, OwnerOf(snapshot))) {
        return Failure(AccountOwnership);
      }
      if (gate.None? || gate.value.token != input.lease.token) && LeaseIsLive(gate, input.lease.now) {
        return Success(InvalidateOutcome(false, false));
      }
      var foreign := resolution.Some? && resolution.value.userId != input.user;
      if foreign {
        resolution := None;
      } else if resolution.Some? && resolution.value.gateToken != input.lease.token {
        resolution := Some(resolution.value.(gateToken := input.lease.token));
      }
      gate := Some(BoundLease(input.lease.(user := Some(input.user))));
      return Success(InvalidateOutcome(true, foreign));
    }

    /** normalizeLegacyDurationOperations: rewrite proven legacy durations one by one, then rotate
        a captured resolution that still carries them. */
    method NormalizeLegacyDurations(input: NormalizeInput) returns (r: Result<(), StoreError>)
      modifies this`queues, this`resolution
      ensures State() == Normalize(old(State()), input).After(old(State()))
      ensures r == Outcome(Normalize(old(State()), input))
    {
      var failed := AssertMetadata(State(), input.ctx);
      if failed.Some? { return Failure(failed.value); }
      var legacy := LegacyDurations(queues);
      if !(legacy <= proof - SentKeys(outgoing)) { return Failure(BootstrapGate); }
      var before, left := queues, legacy;
      while left != {}
        invariant left <= legacy
        invariant State() == old(State()).(queues := RewriteDurations(before, legacy - left))
        decreases left
      {
        var k :| k in left;
        left := left - {k};
        queues := queues[k := before[k].(occurredAt := LEGACY_EPOCH)];
      }
      assert queues == RewriteDurations(before, before.Keys);
      var rotated := Rotate(State().(queues := before), input);
      if rotated.Failure? {
        queues := before;
        return Failure(rotated.error);
      }
      resolution := rotated.value;
      return Success(());
    }
  }
}
