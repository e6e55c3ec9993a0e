/** The server side of bootstrap resolutions: one database transaction that either replays a
    recorded response, refuses, or applies the request once and records it
    (internal/store/bootstrap.go). */
module BootstrapServer {
  import opened Wire

  /** An operation as parsed from a request; `zone` is the offset its time was written in. */
  datatype Op = Op(id: string, deviceId: string, instant: int, zone: int, wall: int, counter: int, content: string)

  type Ops = PerDomain<Op>

  datatype Request = Request(
    requestId: string, deviceId: string, expectedRevision: int, strategy: Option<Strategy>, ops: Ops,
    autoStartPresent: bool, selectedTaskPresent: bool)

  /** SHA-256 of the normalized payload, symbolically: equal hashes are equal encodings. The three
      shapes are what three generations of the server hashed. */
  datatype Hash =
    | Current(device: string, revision: int, strategy: Option<Strategy>,
              commands: seq<Op>, tasks: seq<Op>, durations: seq<Op>,
              autoStarts: seq<Op>, autoStartPresent: bool, selectedTasks: seq<Op>, selectedTaskPresent: bool)
    | Previous(device: string, revision: int, strategy: Option<Strategy>,
               commands: seq<Op>, tasks: seq<Op>, durations: seq<Op>,
               autoStarts: seq<Op>, autoStartPresent: bool)
    | Legacy(device: string, revision: int, strategy: Option<Strategy>,
             commands: seq<Op>, tasks: seq<Op>, durations: seq<Op>)

  datatype Response = Response(revision: int, changed: bool, content: string)

  datatype Stored = Stored(hash: Hash, response: Response)

  /** The account's tables besides the revision and the recorded resolutions. */
  datatype Tables = Tables(ops: Ops, outcomes: seq<string>, sessions: seq<string>, currentTimer: Option<string>)

  datatype Account = Account(revision: int, tables: Tables, resolutions: map<string, Stored>)

  datatype Reduction = Reduction(ops: Ops, timer: string)

  /** The parts of the server that are not modelled: applying operations, reducing the account,
      comparing and persisting the projection and shaping the response. Any of them may fail. */
  datatype Engine = Engine(
    apply: (Tables, Request) -> Option<(Tables, bool)>,
    reduce: (Tables, int) -> Option<Reduction>,
    projectionChanged: (Tables, Reduction) -> Option<bool>,
    persist: (Tables, Reduction, int) -> Option<Tables>,
    respond: (Reduction, int, int, Request) -> Option<string>)

  /** A database statement that fails, or the commit itself. */
  datatype Stage = BeginTx | Lookup | ReadRevision | Clear | RecordResponse | CommitTx

  type Faults = Stage -> bool

  datatype ServerError = InvalidRequest | RequestIdConflict | RevisionConflict | RevisionExhausted | Internal

  // ---------------------------------------------------------------- payload hashes

  function Normalize(op: Op, device: string): Op {
    op.(deviceId := device, zone := 0)
  }

  function Normalized(ops: seq<Op>, device: string): (r: seq<Op>)
    ensures |r| == |ops| && forall i :: 0 <= i < |r| ==> r[i] == Normalize(ops[i], device)
  {
    seq(|ops|, i requires 0 <= i < |ops| => Normalize(ops[i], device))
  }

  function CurrentHash(r: Request): Hash {
    Current(r.deviceId, r.expectedRevision, r.strategy,
            Normalized(r.ops.commands, r.deviceId), Normalized(r.ops.taskOperations, r.deviceId),
            Normalized(r.ops.durationOperations, r.deviceId), Normalized(r.ops.autoStartOperations, r.deviceId),
            r.autoStartPresent, Normalized(r.ops.selectedTaskOperations, r.deviceId), r.selectedTaskPresent)
  }

  function PreviousHash(r: Request): Hash {
    Previous(r.deviceId, r.expectedRevision, r.strategy,
             Normalized(r.ops.commands, r.deviceId), Normalized(r.ops.taskOperations, r.deviceId),
             Normalized(r.ops.durationOperations, r.deviceId), Normalized(r.ops.autoStartOperations, r.deviceId),
             r.autoStartPresent)
  }

  function LegacyHash(r: Request): Hash {
    Legacy(r.deviceId, r.expectedRevision, r.strategy,
           Normalized(r.ops.commands, r.deviceId), Normalized(r.ops.taskOperations, r.deviceId),
           Normalized(r.ops.durationOperations, r.deviceId))
  }

  /** storedBootstrapPayloadMatches */
  predicate Matches(stored: Hash, r: Request) {
    stored == CurrentHash(r)
    || (!r.selectedTaskPresent && stored == PreviousHash(r))
    || (!r.autoStartPresent && !r.selectedTaskPresent && stored == LegacyHash(r))
  }

  /** The same operation, whatever device or zone it was written with. */
  predicate SameOp(a: Op, b: Op) {
    a.id == b.id && a.instant == b.instant && a.wall == b.wall && a.counter == b.counter && a.content == b.content
  }

  predicate SameOps(a: seq<Op>, b: seq<Op>) {
    |a| == |b| && forall i :: 0 <= i < |a| ==> SameOp(a[i], b[i])
  }

  predicate SamePayload(a: Request, b: Request) {
    && a.deviceId == b.deviceId && a.expectedRevision == b.expectedRevision && a.strategy == b.strategy
    && a.autoStartPresent == b.autoStartPresent && a.selectedTaskPresent == b.selectedTaskPresent
    && forall d: Domain :: SameOps(a.ops.Of(d), b.ops.Of(d))
  }

  lemma NormalizedEqual(a: seq<Op>, b: seq<Op>, device: string)
    ensures Normalized(a, device) == Normalized(b, device) <==> SameOps(a, b)
  {
    if Normalized(a, device) == Normalized(b, device) {
      forall i | 0 <= i < |a| ensures SameOp(a[i], b[i]) {
        assert Normalized(a, device)[i] == Normalized(b, device)[i];
      }
    }
  }

  /** A request recorded by this server is matched by exactly the requests with the same payload. */
  lemma MatchesRecordedIffSamePayload(recorded: Request, r: Request)
    ensures Matches(CurrentHash(recorded), r) <==> SamePayload(recorded, r)
  {
    forall d: Domain
      ensures recorded.deviceId == r.deviceId ==>
        (Normalized(recorded.ops.Of(d), r.deviceId) == Normalized(r.ops.Of(d), r.deviceId) <==>
           SameOps(recorded.ops.Of(d), r.ops.Of(d)))
    {
      NormalizedEqual(recorded.ops.Of(d), r.ops.Of(d), r.deviceId);
    }
    if Matches(CurrentHash(recorded), r) {
      forall d: Domain ensures SameOps(recorded.ops.Of(d), r.ops.Of(d)) {
        match d
        case Commands =>
        case TaskOperations =>
        case DurationOperations =>
        case AutoStartOperations =>
        case SelectedTaskOperations =>
      }
    }
    if SamePayload(recorded, r) {
      forall d: Domain ensures Normalized(recorded.ops.Of(d), r.deviceId) == Normalized(r.ops.Of(d), r.deviceId) {
        assert SameOps(recorded.ops.Of(d), r.ops.Of(d));
      }
      assert Normalized(recorded.ops.Of(Commands), r.deviceId) == Normalized(r.ops.Of(Commands), r.deviceId);
      assert Normalized(recorded.ops.Of(TaskOperations), r.deviceId)
          == Normalized(r.ops.Of(TaskOperations), r.deviceId);
      assert Normalized(recorded.ops.Of(DurationOperations), r.deviceId)
          == Normalized(r.ops.Of(DurationOperations), r.deviceId);
      assert Normalized(recorded.ops.Of(AutoStartOperations), r.deviceId)
          == Normalized(r.ops.Of(AutoStartOperations), r.deviceId);
      assert Normalized(recorded.ops.Of(SelectedTaskOperations), r.deviceId)
          == Normalized(r.ops.Of(SelectedTaskOperations), r.deviceId);
    }
  }

  /** The part of a payload that the first generation of the server hashed. */
  predicate SameLegacyPart(a: Request, b: Request) {
    && a.deviceId == b.deviceId && a.expectedRevision == b.expectedRevision && a.strategy == b.strategy
    && SameOps(a.ops.commands, b.ops.commands) && SameOps(a.ops.taskOperations, b.ops.taskOperations)
    && SameOps(a.ops.durationOperations, b.ops.durationOperations)
  }

  /** Records of older servers are matched only by requests that leave out what those servers did
      not know, and then by exactly the payloads that are the same apart from those parts. */
  lemma MatchesOlderRecords(recorded: Request, r: Request)
    ensures Matches(PreviousHash(recorded), r) <==>
            && !r.selectedTaskPresent && SameLegacyPart(recorded, r) && recorded.autoStartPresent == r.autoStartPresent
            && SameOps(recorded.ops.autoStartOperations, r.ops.autoStartOperations)
    ensures Matches(LegacyHash(recorded), r) <==>
            !r.autoStartPresent && !r.selectedTaskPresent && SameLegacyPart(recorded, r)
  {
    var device := r.deviceId;
    NormalizedEqual(recorded.ops.commands, r.ops.commands, device);
    NormalizedEqual(recorded.ops.taskOperations, r.ops.taskOperations, device);
    NormalizedEqual(recorded.ops.durationOperations, r.ops.durationOperations, device);
    NormalizedEqual(recorded.ops.autoStartOperations, r.ops.autoStartOperations, device);
    hide SameOps, Normalized;
  }

  /** The copy-then-overwrite loop of the hash helpers. */
  method NormalizedCopy(ops: seq<Op>, device: string) returns (copy: array<Op>)
    ensures fresh(copy) && copy[..] == Normalized(ops, device)
  {
    copy := new Op[|ops|](i requires 0 <= i < |ops| => ops[i]);
    for i := 0 to copy.Length
      invariant forall j :: 0 <= j < i ==> copy[j] == Normalize(ops[j], device)
      invariant forall j :: i <= j < copy.Length ==> copy[j] == ops[j]
    {
      copy[i] := copy[i].(deviceId := device, zone := 0);
    }
  }

  /** bootstrapPayloadHash */
  method PayloadHash(r: Request) returns (hash: Hash)
    ensures hash == CurrentHash(r)
  {
    var commands := NormalizedCopy(r.ops.commands, r.deviceId);
    var tasks := NormalizedCopy(r.ops.taskOperations, r.deviceId);
    var durations := NormalizedCopy(r.ops.durationOperations, r.deviceId);
    var autoStarts := NormalizedCopy(r.ops.autoStartOperations, r.deviceId);
    var selectedTasks := NormalizedCopy(r.ops.selectedTaskOperations, r.deviceId);
    hash := Current(r.deviceId, r.expectedRevision, r.strategy, commands[..], tasks[..], durations[..],
                    autoStarts[..], r.autoStartPresent, selectedTasks[..], r.selectedTaskPresent);
  }

  // ---------------------------------------------------------------- the transaction

  predicate UniqueIds(ops: seq<Op>) {
    forall i, j :: 0 <= i < j < |ops| ==> ops[i].id != ops[j].id
  }

  predicate Empty(ops: Ops) {
    forall d: Domain :: ops.Of(d) == []
  }

  /** validateBootstrapResolutionRequest; an unknown strategy is None. */
  predicate ValidRequest(r: Request) {
    && (forall d: Domain :: UniqueIds(r.ops.Of(d)))
    && r.strategy.Some?
    && (r.strategy == Some(KeepRemote) ==> Empty(r.ops))
  }

  predicate ValidRevision(n: int) { 0 <= n <= MAX_SAFE }

  /** clearForBootstrapReplacement: operations of a domain the request does not mention survive. */
  function Cleared(t: Tables, autoStart: bool, selectedTask: bool): Tables {
    Tables(PerDomain([], [], [], if autoStart then [] else t.ops.autoStartOperations,
                     if selectedTask then [] else t.ops.selectedTaskOperations), [], [], None)
  }

  /** The reductions hold different operations; for selected tasks only the instant of a time counts. */
  predicate OpsDiffer(a: Ops, b: Ops) {
    a.commands != b.commands || a.taskOperations != b.taskOperations || a.durationOperations != b.durationOperations
    || a.autoStartOperations != b.autoStartOperations
    || !(|a.selectedTaskOperations| == |b.selectedTaskOperations|
         && forall i :: 0 <= i < |a.selectedTaskOperations| ==>
              a.selectedTaskOperations[i].(zone := 0) == b.selectedTaskOperations[i].(zone := 0))
  }

  /** What applying a fresh request yields before it is recorded. */
  datatype Application = Application(tables: Tables, reduction: Reduction, revision: int, changed: bool)

  /** applyBootstrapStrategy: the tables to persist, the reduction, and whether operations changed. */
  function ApplyStrategy(engine: Engine, t: Tables, r: Request, now: int): Option<(Tables, Reduction, bool)>
    requires r.strategy.Some?
  {
    match r.strategy.value
    case KeepRemote =>
      var before := engine.reduce(t, now);
      if before.None? then None else Some((t, before.value, false))
    case Merge =>
      var applied := engine.apply(t, r);
      if applied.None? then None
      else
        var after := engine.reduce(applied.value.0, now);
        if after.None? then None else Some((applied.value.0, after.value, applied.value.1))
    case ReplaceRemote =>
      var before := engine.reduce(t, now);
      if before.None? then None
      else
        var applied := engine.apply(Cleared(t, r.autoStartPresent, r.selectedTaskPresent), r);
        if applied.None? then None
        else
          var after := engine.reduce(applied.value.0, now);
          if after.None? then None
              else Some((applied.value.0, after.value, OpsDiffer(before.value.ops, after.value.ops)))
  }

  /** persistBootstrapApplication */
  function Persist(
      engine: Engine, applied: (Tables, Reduction, bool), revision: int): Result<Application, ServerError> {
    var projection := engine.projectionChanged(applied.0, applied.1);
    if projection.None? then Failure(Internal)
    else if !(applied.2 || projection.value) then Success(Application(applied.0, applied.1, revision, false))
    else if !ValidRevision(revision) || revision == MAX_SAFE then Failure(RevisionExhausted)
    else
      var persisted := engine.persist(applied.0, applied.1, revision + 1);
      if persisted.None? then Failure(Internal)
      else Success(Application(persisted.value, applied.1, revision + 1, true))
  }

  /** A request whose ID is not recorded yet. */
  function ResolveFresh(
      engine: Engine, a: Account, r: Request, now: int, faults: Faults): Result<(Account, Response), ServerError>
    requires r.strategy.Some?
  {
    if faults(ReadRevision) then Failure(Internal)
    else if !ValidRevision(a.revision) then Failure(RevisionExhausted)
    else if a.revision != r.expectedRevision then Failure(RevisionConflict)
    else if r.strategy.value == ReplaceRemote && faults(Clear) then Failure(Internal)
    else
      var applied := ApplyStrategy(engine, a.tables, r, now);
      if applied.None? then Failure(Internal)
      else
        var persisted := Persist(engine, applied.value, a.revision);
        if persisted.Failure? then Failure(persisted.error)
        else
          var p := persisted.value;
          var content := engine.respond(p.reduction, p.revision, now, r);
          if content.None? || faults(RecordResponse) || faults(CommitTx) then Failure(Internal)
          else
            var response := Response(p.revision, p.changed, content.value);
            var resolutions := a.resolutions[r.requestId := Stored(CurrentHash(r), response)];
            Success((Account(p.revision, p.tables, resolutions), response))
  }

  /** resolveBootstrapLocked as a whole: the new account, or an error and the account as it was. */
  function Resolve(
      engine: Engine, a: Account, r: Request, now: int, faults: Faults): (Account, Result<Response, ServerError>) {
    if !ValidRequest(r) then (a, Failure(InvalidRequest))
    else if faults(BeginTx) || faults(Lookup) then (a, Failure(Internal))
    else if r.requestId in a.resolutions then
      var stored := a.resolutions[r.requestId];
      if !Matches(stored.hash, r) then (a, Failure(RequestIdConflict))
      else if !ValidRevision(stored.response.revision) then (a, Failure(RevisionExhausted))
      else (a, Success(stored.response))
    else
      match ResolveFresh(engine, a, r, now, faults)
      case Failure(error) => (a, Failure(error))
      case Success(done) => (done.0, Success(done.1))
  }

  /** The server's store of one account, updated statement by statement inside a transaction. */
  class AccountStore {
    var account: Account

    constructor (a: Account)
      ensures account == a
    {
      account := a;
    }

    /** resolveBootstrapLocked: `tx` is the open transaction; returning without commit rolls back. */
    method ResolveBootstrap(engine: Engine, r: Request, now: int, faults: Faults)
      returns (result: Result<Response, ServerError>)
      modifies this
      ensures (account, result) == Resolve(engine, old(account), r, now, faults)
    {
      if !ValidRequest(r) { return Failure(InvalidRequest); }
      var hash := PayloadHash(r);
      if faults(BeginTx) { return Failure(Internal); }
      var tx := account;
      if faults(Lookup) { return Failure(Internal); }
      if r.requestId in tx.resolutions {
        var stored := tx.resolutions[r.requestId];
        if stored.hash != hash && !Matches(stored.hash, r) { return Failure(RequestIdConflict); }
        if !ValidRevision(stored.response.revision) { return Failure(RevisionExhausted); }
        return Success(stored.response);
      }
      if faults(ReadRevision) { return Failure(Internal); }
      var revision := tx.revision;
      if !ValidRevision(revision) { return Failure(RevisionExhausted); }
      if revision != r.expectedRevision { return Failure(RevisionConflict); }

      var strategy := r.strategy.value;
      var reduction, changed := Reduction(PerDomain([], [], [], [], []), ""), false;
      if strategy == KeepRemote || strategy == ReplaceRemote {
        var reduced := engine.reduce(tx.tables, now);
        if reduced.None? { return Failure(Internal); }
        reduction := reduced.value;
      }
      var before := reduction;
      if strategy == ReplaceRemote {
        if faults(Clear) { return Failure(Internal); }
        tx := tx.(tables := Cleared(tx.tables, r.autoStartPresent, r.selectedTaskPresent));
      }
      if strategy != KeepRemote {
        var applied := engine.apply(tx.tables, r);
        if applied.None? { return Failure(Internal); }
        tx := tx.(tables := applied.value.0);
        changed := applied.value.1;
        var reduced := engine.reduce(tx.tables, now);
        if reduced.None? { return Failure(Internal); }
        reduction := reduced.value;
      }
      var projection := engine.projectionChanged(tx.tables, reduction);
      if projection.None? { return Failure(Internal); }
      if strategy == ReplaceRemote { changed := OpsDiffer(before.ops, reduction.ops); }
      changed := changed || projection.value;
      if changed {
        if revision == MAX_SAFE { return Failure(RevisionExhausted); }
        revision := revision + 1;
        var persisted := engine.persist(tx.tables, reduction, revision);
        if persisted.None? { return Failure(Internal); }
        tx := tx.(tables := persisted.value, revision := revision);
      }
      var content := engine.respond(reduction, revision, now, r);
      if content.None? || faults(RecordResponse) { return Failure(Internal); }
      var response := Response(revision, changed, content.value);
      tx := tx.(resolutions := tx.resolutions[r.requestId := Stored(hash, response)]);
      if faults(CommitTx) { return Failure(Internal); }
      account := tx;
      return Success(response);
    }
  }

  // ---------------------------------------------------------------- runs

  /** What happens to an account: a submission, or any other committed write such as a sync. Those
      never touch the recorded resolutions. */
  datatype Event =
    | Submit(request: Request, now: int, faults: Faults)
    | OtherWrite(revision: int, tables: Tables)

  function After(engine: Engine, a: Account, e: Event): Account {
    match e
    case Submit(r, now, faults) => Resolve(engine, a, r, now, faults).0
    case OtherWrite(revision, tables) => a.(revision := revision, tables := tables)
  }

  function Run(engine: Engine, a: Account, events: seq<Event>): Account
    decreases |events|
  {
    if events == [] then a else After(engine, Run(engine, a, events[..|events| - 1]), events[|events| - 1])
  }

  /** The event applied the request with this ID: it answered with success without a record. */
  predicate Applies(engine: Engine, a: Account, e: Event, id: string) {
    e.Submit? && e.request.requestId == id && id !in a.resolutions
    && Resolve(engine, a, e.request, e.now, e.faults).1.Success?
  }

  /** How often a run applies a request ID. */
  function Applications(engine: Engine, a: Account, events: seq<Event>, id: string): nat
    decreases |events|
  {
    if events == [] then 0
    else
      var shorter, last := events[..|events| - 1], events[|events| - 1];
      Applications(engine, a, shorter, id) + if Applies(engine, Run(engine, a, shorter), last, id) then 1 else 0
  }

  /** How much a run's submissions under one request ID raise the revision. */
  function Bumps(engine: Engine, a: Account, events: seq<Event>, id: string): int
    decreases |events|
  {
    if events == [] then 0
    else
      var shorter, last := events[..|events| - 1], events[|events| - 1];
      var before := Run(engine, a, shorter);
      var raised := After(engine, before, last).revision - before.revision;
      Bumps(engine, a, shorter, id) + if last.Submit? && last.request.requestId == id then raised else 0
  }

  /** One submission: an error changes nothing, a recorded ID changes nothing whatever the revision
      is, and a fresh success needs the expected revision, raises it by at most one and records. */
  lemma SubmissionEffects(engine: Engine, a: Account, r: Request, now: int, faults: Faults)
    ensures var (after, result) := Resolve(engine, a, r, now, faults);
            && (result.Failure? || r.requestId in a.resolutions ==> after == a)
            && (r.requestId in a.resolutions && result.Success? ==>
                  Matches(a.resolutions[r.requestId].hash, r) && result.value == a.resolutions[r.requestId].response)
            && (r.requestId !in a.resolutions && result.Success? ==>
                  && a.revision == r.expectedRevision
                  && after.revision == (if result.value.changed then a.revision + 1 else a.revision)
                  && result.value.revision == after.revision && ValidRevision(after.revision)
                  && after.resolutions == a.resolutions[r.requestId := Stored(CurrentHash(r), result.value)])
            && (result.Success? ==> ValidRequest(r) && ValidRevision(result.value.revision))
  {
  }

  /** A retry with the recorded payload gets the recorded answer, unless the database fails. */
  lemma RetryIsAnswered(engine: Engine, a: Account, r: Request, now: int, faults: Faults)
    requires ValidRequest(r) && r.requestId in a.resolutions
    requires Matches(a.resolutions[r.requestId].hash, r) && ValidRevision(a.resolutions[r.requestId].response.revision)
    ensures Resolve(engine, a, r, now, faults).1 ==
            if faults(BeginTx) || faults(Lookup) then Failure(Internal)
                else Success(a.resolutions[r.requestId].response)
  {
  }

  /** Over any run: what is recorded stays as it is, an ID is applied at most once, exactly when it
      becomes recorded, and its submissions raise the revision by at most one in total. */
  lemma {:induction false} AtMostOnce(engine: Engine, a: Account, events: seq<Event>, id: string)
    ensures var after := Run(engine, a, events);
            && a.resolutions.Keys <= after.resolutions.Keys
            && (forall k :: k in a.resolutions ==> after.resolutions[k] == a.resolutions[k])
            && Applications(engine, a, events, id) == (if id in after.resolutions && id !in a.resolutions then 1 else 0)
            && 0 <= Bumps(engine, a, events, id) <= Applications(engine, a, events, id)
    decreases |events|
  {
    if events != [] {
      var shorter, last := events[..|events| - 1], events[|events| - 1];
      AtMostOnce(engine, a, shorter, id);
      if last.Submit? {
        SubmissionEffects(engine, Run(engine, a, shorter), last.request, last.now, last.faults);
      }
    }
  }

  /** Keep-remote touches no operation table; replace-remote keeps the operations of an optional
      domain that the request leaves out as the base its own operations are applied to. */
  lemma StrategyScope(engine: Engine, t: Tables, r: Request, now: int)
    requires r.strategy.Some? && ApplyStrategy(engine, t, r, now).Some?
    ensures r.strategy.value == KeepRemote ==> ApplyStrategy(engine, t, r, now).value.0 == t
    ensures r.strategy.value == ReplaceRemote ==>
            exists base: Tables ::
              && engine.apply(base, r).Some?
              && engine.apply(base, r).value.0 == ApplyStrategy(engine, t, r, now).value.0
              && base.ops.commands == [] && base.ops.taskOperations == [] && base.ops.durationOperations == []
              && (if r.autoStartPresent then base.ops.autoStartOperations == []
                  else base.ops.autoStartOperations == t.ops.autoStartOperations)
              && (if r.selectedTaskPresent then base.ops.selectedTaskOperations == []
                  else base.ops.selectedTaskOperations == t.ops.selectedTaskOperations)
  {
    if r.strategy.value == ReplaceRemote {
      var base := Cleared(t, r.autoStartPresent, r.selectedTaskPresent);
      assert engine.apply(base, r).Some?;
    }
  }
}
