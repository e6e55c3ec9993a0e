/** What the server writes into the deletion ledger (internal/store/deletion_ledger.go,
    deletion_receipt.go, database.go): receipts, tombstones and lifecycle records, one atomic rename
    after another, with a crash possible after each of them. */
module DeletionLedger {
  import opened Wire
  import opened RecoveryFiles
  import opened RecoveryLedger

  /** The ledger after each write, and whether the operation went through. */
  datatype Outcome = Outcome(writes: seq<Dir>, ok: bool)

  function Last(ledger: Dir, writes: seq<Dir>): Dir {
    if writes == [] then ledger else writes[|writes| - 1]
  }

  // ---------------------------------------------------------------- reading

  /** readDeletionRecord: 0 without a file, None for an error. */
  function StoredDeletion(ledger: Dir, a: Account): Option<int> {
    if Top(TombstoneFile(a)) !in ledger then Some(0)
    else
      var r := PrivateJson(ledger, TombstoneFile(a));
      if r.None? || !r.value.Tombstone? || r.value.version != VERSION then None
      else if !ValidGeneration(r.value.deletedGeneration) || r.value.deletedAt < 1 then None
      else Some(r.value.deletedGeneration)
  }

  const NO_LIFECYCLE := Lifecycle(0, 0, None, 0)

  /** accountLifecycle: the zero record without a file, None for an error. */
  function StoredLifecycle(ledger: Dir, a: Account): (r: Option<Record>)
    ensures r.Some? ==> r.value.Lifecycle?
  {
    if Top(LifecycleFile(a)) !in ledger then Some(NO_LIFECYCLE)
    else
      var r := PrivateJson(ledger, LifecycleFile(a));
      if r.None? || !r.value.Lifecycle? || r.value.version != VERSION then None
      else if !ValidGeneration(r.value.generation) || r.value.state.None? || r.value.updatedAt < 1 then None
      else r
  }

  /** deletedGeneration: the tombstone, once the account's database is bound to the ledger. */
  function CurrentDeletion(data: Dir, ledger: Dir, user: string): Option<int> {
    var deleted := StoredDeletion(ledger, OfUser(user));
    if deleted.None? || !HasMain(data, user) then deleted
    else
      var g := StoredGeneration(data, user);
      if g.None? then None
      else if g.value <= deleted.value then deleted
      else
        var lifecycle := StoredLifecycle(ledger, OfUser(user));
        if lifecycle.None? || lifecycle.value.state != Some(Active) || lifecycle.value.generation != g.value then None
        else deleted
  }

  // ---------------------------------------------------------------- writing

  /** recordAccountLifecycle */
  function RecordLifecycle(ledger: Dir, user: string, generation: int, state: State, now: int): Outcome {
    var current := StoredLifecycle(ledger, OfUser(user));
    if current.None? || !ValidGeneration(generation) then Outcome([], false)
    else if current.value.generation > generation then Outcome([], false)
    else if current.value.generation == generation && current.value.state == Some(Deleted) && state == Active then
      Outcome([], false)
    else
      Outcome([WithJson(ledger, LifecycleFile(OfUser(user)), Lifecycle(VERSION, generation, Some(state), now))], true)
  }

  /** recordDeletedAccountLifecycle */
  function RecordDeletedLifecycle(ledger: Dir, user: string, generation: int, now: int): Outcome {
    var current := StoredLifecycle(ledger, OfUser(user));
    if current.None? then Outcome([], false)
    else if current.value.generation > generation then Outcome([], true)
    else RecordLifecycle(ledger, user, generation, Deleted, now)
  }

  /** recordDeletion: the tombstone, then the lifecycle. */
  function RecordDeletion(data: Dir, ledger: Dir, user: string, generation: int, now: int): Outcome {
    var current := CurrentDeletion(data, ledger, user);
    if current.None? then Outcome([], false)
    else
      var g := if current.value > generation then current.value else generation;
      if !ValidGeneration(g) then Outcome([], false)
      else
        var buried := WithJson(ledger, TombstoneFile(OfUser(user)), Tombstone(VERSION, g, now));
        var rest := RecordDeletedLifecycle(buried, user, g, now);
        Outcome([buried] + rest.writes, rest.ok)
  }

  /** The credential a deletion was asked for with; a session that is no longer live is refused. */
  datatype Session = Session(byCookie: bool, token: string, csrfHash: seq<int>, live: bool)

  const HASH_SIZE := 32

  function ReceiptName(user: string, s: Session): Name {
    DeletionReceiptFile(user, s.byCookie, s.token)
  }

  predicate ReceiptOk(r: Record, byCookie: bool) {
    r.DeletionReceipt? && r.version == VERSION && ValidGeneration(r.receiptGeneration)
        && |r.csrfHash| == (if byCookie then HASH_SIZE else 0)
  }

  /** readDeletionReceipt: generation 0 without a file, None for an error. */
  function StoredReceipt(ledger: Dir, user: string, s: Session): (r: Option<Record>)
    ensures r.Some? ==> r.value.DeletionReceipt?
  {
    if Top(ReceiptName(user, s)) !in ledger then Some(DeletionReceipt(0, 0, []))
    else
      var r := PrivateJson(ledger, ReceiptName(user, s));
      if r.Some? && ReceiptOk(r.value, s.byCookie) then r else None
  }

  /** CommittedDeletionReceipt: None for an error, generation 0 when there is none or the deletion it
      announces was never recorded. */
  function CommittedReceipt(data: Dir, ledger: Dir, user: string, s: Session): (r: Option<Record>)
    ensures r.Some? ==> r.value.DeletionReceipt?
  {
    var receipt := StoredReceipt(ledger, user, s);
    if receipt.None? || receipt.value.receiptGeneration == 0 then receipt
    else
      var deleted := CurrentDeletion(data, ledger, user);
      if deleted.None? then None
      else if deleted.value < receipt.value.receiptGeneration then Some(DeletionReceipt(0, 0, []))
      else receipt
  }

  /** The account is open at this generation: its database exists, is above the deletion and is bound
      to the ledger. */
  predicate OpenAt(data: Dir, ledger: Dir, user: string, generation: int) {
    && HasMain(data, user) && StoredGeneration(data, user) == Some(generation)
    && CurrentDeletion(data, ledger, user).Some? && CurrentDeletion(data, ledger, user).value < generation
  }

  /** No committed receipt answers the request, and it may delete the account. */
  predicate StartsDeletion(data: Dir, ledger: Dir, user: string, generation: int, s: Session) {
    var committed := CommittedReceipt(data, ledger, user, s);
    && committed.Some? && committed.value.receiptGeneration == 0
    && OpenAt(data, ledger, user, generation) && s.live
    && ReceiptOk(DeletionReceipt(VERSION, generation, s.csrfHash), s.byCookie)
  }

  /** A committed receipt answers a request for its own generation and, by cookie, CSRF token. */
  predicate AnsweredBy(receipt: Record, generation: int, s: Session)
    requires receipt.DeletionReceipt?
  {
    receipt.receiptGeneration == generation && (s.byCookie ==> receipt.csrfHash == s.csrfHash)
  }

  /** deleteUserWithReceipt as far as the ledger goes; removing the database is a change to the data. */
  function DeleteUser(data: Dir, ledger: Dir, user: string, generation: int, s: Session, now: int): Outcome {
    var committed := CommittedReceipt(data, ledger, user, s);
    if committed.None? then Outcome([], false)
    else if committed.value.receiptGeneration != 0 then
      Outcome([], AnsweredBy(committed.value, generation, s))
    else if !StartsDeletion(data, ledger, user, generation, s) then Outcome([], false)
    else
      var announced := WithJson(ledger, ReceiptName(user, s), DeletionReceipt(VERSION, generation, s.csrfHash));
      var rest := RecordDeletion(data, announced, user, generation, now);
      Outcome([announced] + rest.writes, rest.ok)
  }

  /** OpenUser: an account without a usable database starts over above its deletion. */
  function OpenUser(data: Dir, ledger: Dir, user: string, now: int): Outcome {
    var deleted := CurrentDeletion(data, ledger, user);
    if deleted.None? || (HasMain(data, user) && StoredGeneration(data, user).None?) then Outcome([], false)
    else if HasMain(data, user) && StoredGeneration(data, user).value > deleted.value then Outcome([], true)
    else if deleted.value == MAX_REVISION then Outcome([], false)
    else RecordLifecycle(ledger, user, deleted.value + 1, Active, now)
  }

  /** applyAccountDeletionObligation, for a user with database files. */
  function ApplyObligation(data: Dir, ledger: Dir, user: string, now: int): Outcome {
    var deleted := CurrentDeletion(data, ledger, user);
    var lifecycle := StoredLifecycle(ledger, OfUser(user));
    if deleted.None? || lifecycle.None? then Outcome([], false)
    else if !HasMain(data, user) then
      if deleted.value >= lifecycle.value.generation && deleted.value > 0 then
        RecordDeletedLifecycle(ledger, user, deleted.value, now)
      else Outcome([], false)
    else
      var g := StoredGeneration(data, user);
      if g.None? then Outcome([], false)
      else if g.value <= deleted.value then RecordDeletedLifecycle(ledger, user, g.value, now)
      else Outcome([], lifecycle.value.state == Some(Active) && lifecycle.value.generation == g.value)
  }

  // ---------------------------------------------------------------- the same, write by write

  class Ledger {
    var files: Dir
    /** The directory after each write so far. */
    ghost var written: seq<Dir>

    constructor (files: Dir)
      ensures this.files == files && written == []
    {
      this.files, written := files, [];
    }

    /** A temporary file renamed over the record. */
    method Publish(n: Name, r: Record)
      modifies this
      ensures files == WithJson(old(files), n, r) && written == old(written) + [files]
    {
      files := WithJson(files, n, r);
      written := written + [files];
    }

    method RecordAccountLifecycle(user: string, generation: int, state: State, now: int) returns (ok: bool)
      modifies this
      ensures var o := RecordLifecycle(old(files), user, generation, state, now);
              ok == o.ok && written == old(written) + o.writes && files == Last(old(files), o.writes)
    {
      var current := StoredLifecycle(files, OfUser(user));
      if current.None? || !ValidGeneration(generation) { return false; }
      if current.value.generation > generation
        || (current.value.generation == generation && current.value.state == Some(Deleted) && state == Active) {
        return false;
      }
      Publish(LifecycleFile(OfUser(user)), Lifecycle(VERSION, generation, Some(state), now));
      return true;
    }

    method RecordDeletedAccountLifecycle(user: string, generation: int, now: int) returns (ok: bool)
      modifies this
      ensures var o := RecordDeletedLifecycle(old(files), user, generation, now);
              ok == o.ok && written == old(written) + o.writes && files == Last(old(files), o.writes)
    {
      var current := StoredLifecycle(files, OfUser(user));
      if current.None? { return false; }
      if current.value.generation > generation { return true; }
      ok := RecordAccountLifecycle(user, generation, Deleted, now);
    }

    method RecordAccountDeletion(data: Dir, user: string, generation: int, now: int) returns (ok: bool)
      modifies this
      ensures var o := RecordDeletion(data, old(files), user, generation, now);
              ok == o.ok && written == old(written) + o.writes && files == Last(old(files), o.writes)
    {
      hide RecordDeletedLifecycle;
      var current := CurrentDeletion(data, files, user);
      if current.None? { return false; }
      var g := if current.value > generation then current.value else generation;
      if !ValidGeneration(g) { return false; }
      Publish(TombstoneFile(OfUser(user)), Tombstone(VERSION, g, now));
      ok := RecordDeletedAccountLifecycle(user, g, now);
    }

    method DeleteUserWithReceipt(data: Dir, user: string, generation: int, s: Session, now: int) returns (ok: bool)
      modifies this
      ensures var o := DeleteUser(data, old(files), user, generation, s, now);
              ok == o.ok && written == old(written) + o.writes && files == Last(old(files), o.writes)
    {
      hide RecordDeletion, CurrentDeletion, CommittedReceipt;
      var receipt := CommittedReceipt(data, files, user, s);
      if receipt.None? { return false; }
      if receipt.value.receiptGeneration != 0 {
        return AnsweredBy(receipt.value, generation, s);
      }
      if !OpenAt(data, files, user, generation) || !s.live { return false; }
      var announced := DeletionReceipt(VERSION, generation, s.csrfHash);
      if !ReceiptOk(announced, s.byCookie) { return false; }
      Publish(ReceiptName(user, s), announced);
      ok := RecordAccountDeletion(data, user, generation, now);
    }

    method OpenUserAccount(data: Dir, user: string, now: int) returns (ok: bool)
      modifies this
      ensures var o := OpenUser(data, old(files), user, now);
              ok == o.ok && written == old(written) + o.writes && files == Last(old(files), o.writes)
    {
      var deleted := CurrentDeletion(data, files, user);
      if deleted.None? { return false; }
      if HasMain(data, user) {
        var g := StoredGeneration(data, user);
        if g.None? { return false; }
        if g.value > deleted.value { return true; }
      }
      if deleted.value == MAX_REVISION { return false; }
      ok := RecordAccountLifecycle(user, deleted.value + 1, Active, now);
    }

    method ApplyDeletionObligation(data: Dir, user: string, now: int) returns (ok: bool)
      modifies this
      ensures var o := ApplyObligation(data, old(files), user, now);
              ok == o.ok && written == old(written) + o.writes && files == Last(old(files), o.writes)
    {
      hide RecordDeletedLifecycle, CurrentDeletion, StoredLifecycle;
      var deleted := CurrentDeletion(data, files, user);
      if deleted.None? { return false; }
      var lifecycle := StoredLifecycle(files, OfUser(user));
      if lifecycle.None? { return false; }
      if !HasMain(data, user) {
        if deleted.value < lifecycle.value.generation || deleted.value <= 0 { return false; }
        ok := RecordDeletedAccountLifecycle(user, deleted.value, now);
        return;
      }
      var g := StoredGeneration(data, user);
      if g.None? { return false; }
      if g.value <= deleted.value {
        ok := RecordDeletedAccountLifecycle(user, g.value, now);
        return;
      }
      return lifecycle.value.state == Some(Active) && lifecycle.value.generation == g.value;
    }
  }
}
