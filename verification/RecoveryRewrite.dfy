/** A concrete history in which a later snapshot does not dominate: a deletion receipt is replaced by
    another one (internal/store/deletion_receipt.go, scripts/restore_drill.py). */
module RecoveryRewrite {
  import opened Wire
  import opened RecoveryFiles
  import opened RecoveryLineage
  import opened RecoveryLedger
  import opened RecoveryAdvance
  import opened RecoveryRestore
  import opened RecoverySnapshots
  import opened RecoveryGrowth
  import History = RecoveryHistory
  import Server = DeletionLedger

  const USER := "u"
  const DOMAIN := Domain(VERSION, "domain", "key", true, true)

  function Bytes32(b: int): (r: seq<int>)
    ensures |r| == Server.HASH_SIZE
  {
    seq(Server.HASH_SIZE, _ => b)
  }

  /** The same session before and after its CSRF token changed. */
  function SessionWith(b: int): Server.Session {
    Server.Session(true, "token", Bytes32(b), true)
  }

  const RECEIPT := Top(DeletionReceiptFile(USER, true, "token"))
  const LIFECYCLE := Top(LifecycleFile(OfUser(USER)))
  const TOMBSTONE := Top(TombstoneFile(OfUser(USER)))

  function Private(r: Record): Node {
    File(PRIVATE, Json(r, 0))
  }

  /** One account at generation 1 in an accepted storage without receipts of the recovery tool. */
  function Begin(): Disk {
    Disk(
      map[Top(OtherName(USERS)) := Directory(448), DatabasePath(USER, Main) := File(PRIVATE, Database(1, 0))],
      map[Top(DomainFile) := Private(DOMAIN), LIFECYCLE := Private(Lifecycle(VERSION, 1, Some(Active), 1))])
  }

  /** The account's files in the course of the example, whatever recovery records there are. */
  ghost predicate Scene(d: Disk, receipt: Option<int>, deleted: bool) {
    && Top(OtherName(USERS)) in d.data && d.data[Top(OtherName(USERS))] == Directory(448)
    && DatabasePath(USER, Main) in d.data && d.data[DatabasePath(USER, Main)] == File(PRIVATE, Database(1, 0))
    && (forall p :: p in d.data && p.name.DatabaseFile? ==> p.name.user == USER)
    && (forall p :: p in d.ledger ==> p in {LIFECYCLE, TOMBSTONE, RECEIPT} || p.name.DomainFile? || p.name.ReceiptFile?)
    && (RECEIPT in d.ledger <==> receipt.Some?) && (TOMBSTONE in d.ledger <==> deleted) && LIFECYCLE in d.ledger
    && (receipt.Some? ==> d.ledger[RECEIPT] == Private(DeletionReceipt(VERSION, 1, Bytes32(receipt.value))))
    && (deleted ==> d.ledger[TOMBSTONE] == Private(Tombstone(VERSION, 1, 2)))
    && d.ledger[LIFECYCLE] == Private(
         if deleted then Lifecycle(VERSION, 1, Some(Deleted), 2) else Lifecycle(VERSION, 1, Some(Active), 1))
  }

  lemma SceneAllows(d: Disk, receipt: Option<int>, deleted: bool)
    requires Scene(d, receipt, deleted)
    ensures LedgerAllows(d.data, d.ledger) && Cleaned(d).ledger == d.ledger
  {
    var a := OfUser(USER);
    var e := EntryOf(d.ledger, a);
    assert e == if deleted then Entry(Some(Lifecycle(VERSION, 1, Some(Deleted), 2)), Some(Tombstone(VERSION, 1, 2)))
        else Entry(Some(Lifecycle(VERSION, 1, Some(Active), 1)), None);
    assert Accounts(d.ledger) == {a};
    assert LedgerOk(d.ledger);
    assert Marks(d.ledger)[a] == (if deleted then Mark(1, Deleted, 1, 1) else Mark(1, Active, 1, 0));
    assert DatabasePath(USER, Main).name.user == USER;
    assert Users(d.data).value == {USER};
  }

  lemma SceneStarts(d: Disk, receipt: Option<int>, b: int)
    requires Scene(d, receipt, false)
    ensures Server.StartsDeletion(d.data, d.ledger, USER, 1, SessionWith(b))
  {
    assert Server.StoredDeletion(d.ledger, OfUser(USER)) == Some(0);
    assert Server.StoredLifecycle(d.ledger, OfUser(USER)) == Some(Lifecycle(VERSION, 1, Some(Active), 1));
    assert Server.CurrentDeletion(d.data, d.ledger, USER) == Some(0);
  }

  function Announced(d: Disk, b: int): Dir {
    WithJson(d.ledger, DeletionReceiptFile(USER, true, "token"), DeletionReceipt(VERSION, 1, Bytes32(b)))
  }

  function Buried(d: Disk, b: int): Dir {
    WithJson(Announced(d, b), TombstoneFile(OfUser(USER)), Tombstone(VERSION, 1, 2))
  }

  function Ended(d: Disk, b: int): Dir {
    WithJson(Buried(d, b), LifecycleFile(OfUser(USER)), Lifecycle(VERSION, 1, Some(Deleted), 2))
  }

  lemma SceneWrites(d: Disk, receipt: Option<int>, b: int)
    requires Scene(d, receipt, false)
    ensures Server.DeleteUser(d.data, d.ledger, USER, 1, SessionWith(b), 2).writes
            == [Announced(d, b), Buried(d, b), Ended(d, b)]
  {
    SceneStarts(d, receipt, b);
    assert Server.CurrentDeletion(d.data, Announced(d, b), USER) == Some(0) by {
      assert Server.StoredDeletion(Announced(d, b), OfUser(USER)) == Some(0);
      assert Server.StoredLifecycle(Announced(d, b), OfUser(USER)) == Some(Lifecycle(VERSION, 1, Some(Active), 1));
    }
    assert Server.StoredLifecycle(Buried(d, b), OfUser(USER)) == Some(Lifecycle(VERSION, 1, Some(Active), 1));
    hide Scene, Server.CurrentDeletion, Server.StoredLifecycle, Server.StoredDeletion, WithJson;
    var rest := Server.RecordDeletion(d.data, Announced(d, b), USER, 1, 2).writes;
    assert rest == [Buried(d, b), Ended(d, b)];
    assert Server.CommittedReceipt(d.data, d.ledger, USER, SessionWith(b)).value.receiptGeneration == 0;
    hide Server.CommittedReceipt, Server.StartsDeletion, Server.RecordDeletion;
  }

  lemma SceneAnnounced(d: Disk, receipt: Option<int>, b: int)
    requires Scene(d, receipt, false)
    ensures Scene(Disk(d.data, Announced(d, b)), Some(b), false)
  {
    hide Bytes32;
  }

  lemma SceneEnded(d: Disk, receipt: Option<int>, b: int)
    requires Scene(d, receipt, false)
    ensures Scene(Disk(d.data, Ended(d, b)), Some(b), true)
  {
    hide Bytes32;
  }

  /** Cut off after its first write, the deletion has left its receipt; complete, it is recorded. */
  lemma SceneDeletes(d: Disk, receipt: Option<int>, b: int)
    requires Scene(d, receipt, false)
    ensures History.After(d, History.Delete(USER, 1, SessionWith(b), 2, 1)) == Disk(d.data, Announced(d, b))
    ensures History.After(d, History.Delete(USER, 1, SessionWith(b), 2, 3)) == Disk(d.data, Ended(d, b))
    ensures Scene(Disk(d.data, Announced(d, b)), Some(b), false) && Scene(Disk(d.data, Ended(d, b)), Some(b), true)
  {
    hide Server.DeleteUser, Scene, Announced, Buried, Ended, SessionWith;
    SceneWrites(d, receipt, b);
    SceneAnnounced(d, receipt, b);
    SceneEnded(d, receipt, b);
  }

  lemma OtherWriteChain(ledger: Dir, n: Name, r: Record, domain: Record, receipts: seq<Link>)
    requires domain.Domain? && Chain(ledger, domain, receipts) && !n.ReceiptFile? && !n.MalformedReceiptFile?
    ensures Chain(WithJson(ledger, n, r), domain, receipts)
  {
    var after := WithJson(ledger, n, r);
    forall k: nat ensures k in Numbers(after) <==> k in Numbers(ledger) {
      NumbersAreFiles(after, k);
      NumbersAreFiles(ledger, k);
    }
    assert MalformedReceiptName(after) ==> MalformedReceiptName(ledger);
    forall i | 0 <= i < |receipts|
      ensures ParseReceipt(after, domain, i + 1, DigestBefore(receipts, i))
          == ParseReceipt(ledger, domain, i + 1, DigestBefore(receipts, i))
    {
    }
    hide ParseReceipt, Numbers, MalformedReceiptName;
  }

  lemma OtherWriteDomain(ledger: Dir, n: Name, r: Record)
    requires !n.DomainFile?
    ensures LoadDomain(WithJson(ledger, n, r)) == LoadDomain(ledger)
  {
  }

  /** Writing any other file leaves the lineage alone. */
  lemma OtherWriteAccepted(d: Disk, n: Name, r: Record, domain: Record, receipts: seq<Link>)
    requires Accepted(d, domain, receipts) && !n.DomainFile? && !n.ReceiptFile? && !n.MalformedReceiptFile?
    ensures Accepted(Disk(d.data, WithJson(d.ledger, n, r)), domain, receipts)
  {
    hide LoadReceipts, LoadBinding, LoadDomain, Chain, WithJson;
    OtherWriteDomain(d.ledger, n, r);
    LoadsExactlyChains(d.ledger, domain, receipts);
    OtherWriteChain(d.ledger, n, r, domain, receipts);
    LoadsExactlyChains(WithJson(d.ledger, n, r), domain, receipts);
  }

  lemma SceneTakes(d: Disk, f: Fresh, receipt: Option<int>, deleted: bool, receipts: seq<Link>)
    requires Scene(d, receipt, deleted) && Accepted(Cleaned(d), DOMAIN, receipts)
    requires receipts == [] || (receipts == [receipts[0]] && Top(BindingFile) in Cleaned(d).data)
    ensures var (now, s) := CreateSnapshot(d, f);
            && s.Some? && Scene(now, receipt, deleted) && Top(BindingFile) in now.data
            && exists link :: Accepted(now, DOMAIN, receipts + [link])
  {
    SceneAllows(d, receipt, deleted);
    var clean := Cleaned(d);
    assert Scene(clean, receipt, deleted);
    SceneAllows(clean, receipt, deleted);
    AdvanceSucceedsIff(clean, f, DOMAIN, receipts);
    AdvanceExtends(clean, f, DOMAIN, receipts);
    CreatedSnapshotVerifies(d, f, DOMAIN, receipts);
    var states := Advance(clean, f).0;
    AdvanceScene(clean, f, receipt, deleted, receipts);
    hide Accepted, Scene, Advance, LedgerAllows, Cleaned, ManifestOf;
    assert CreateSnapshot(d, f).0 == states[1];
    assert Accepted(states[1], DOMAIN, receipts + [Advance(clean, f).1.value]);
  }

  lemma RecoveryWritesKeepScene(d: Disk, n: nat, r: Record, b: Record, receipt: Option<int>, deleted: bool)
    requires Scene(d, receipt, deleted)
    ensures Scene(Disk(WithJson(d.data, BindingFile, b), WithJson(d.ledger, ReceiptFile(n), r)), receipt, deleted)
  {
    hide Bytes32, Private;
  }

  lemma AdvanceScene(d: Disk, f: Fresh, receipt: Option<int>, deleted: bool, receipts: seq<Link>)
    requires Scene(d, receipt, deleted) && Accepted(d, DOMAIN, receipts) && Advance(d, f).1.Success?
    ensures var states := Advance(d, f).0;
            |states| == 2 && Scene(states[1], receipt, deleted) && Top(BindingFile) in states[1].data
  {
    assert EnsureDomain(d.ledger, f) == Success((d.ledger, DOMAIN));
    var p := NextReceipt(DOMAIN, receipts, DataDigest(d.data));
    var binding := BindingRecord(DOMAIN, LinkOf(DOMAIN, p));
    RecoveryWritesKeepScene(d, p.sequence, ReceiptRecord(DOMAIN, p), binding, receipt, deleted);
    hide LoadReceipts, LoadBinding, DataDigest, Scene, LoadDomain, EnsureDomain, ReceiptRecord, LinkOf, BindingRecord;
  }

  lemma BeginAccepted()
    ensures Scene(Begin(), None, false) && Accepted(Begin(), DOMAIN, [])
  {
    LoadsExactlyChains(Begin().ledger, DOMAIN, []);
    hide LoadReceipts;
    forall n: nat ensures n !in Numbers(Begin().ledger) {
      NumbersAreFiles(Begin().ledger, n);
    }
  }

  lemma DeletionAccepted(d: Disk, b: int, receipts: seq<Link>)
    requires Accepted(d, DOMAIN, receipts)
    ensures Accepted(Disk(d.data, Announced(d, b)), DOMAIN, receipts)
    ensures Accepted(Disk(d.data, Ended(d, b)), DOMAIN, receipts)
  {
    hide Accepted, WithJson;
    var announced, buried := Disk(d.data, Announced(d, b)), Disk(d.data, Buried(d, b));
    var receipt, lifecycle := DeletionReceipt(VERSION, 1, Bytes32(b)), Lifecycle(VERSION, 1, Some(Deleted), 2);
    OtherWriteAccepted(d, DeletionReceiptFile(USER, true, "token"), receipt, DOMAIN, receipts);
    OtherWriteAccepted(announced, TombstoneFile(OfUser(USER)), Tombstone(VERSION, 1, 2), DOMAIN, receipts);
    OtherWriteAccepted(buried, LifecycleFile(OfUser(USER)), lifecycle, DOMAIN, receipts);
  }

  lemma CleanAccepted(d: Disk, receipts: seq<Link>)
    requires Accepted(d, DOMAIN, receipts) && Cleaned(d).ledger == d.ledger
    ensures Accepted(Cleaned(d), DOMAIN, receipts)
    ensures Top(BindingFile) in d.data <==> Top(BindingFile) in Cleaned(d).data
  {
    hide LoadReceipts, LoadDomain;
  }

  lemma OtherReceipt(older: Disk, newer: Disk)
    requires Scene(older, Some(0), false) && Scene(newer, Some(1), true)
    ensures !DeletionReceiptsKept(older.ledger, newer.ledger)
  {
    assert Bytes32(0)[0] != Bytes32(1)[0];
    assert !Kept(older.ledger, newer.ledger, Top(DeletionReceiptFile(USER, true, "token")));
  }

  lemma Rewrites(d: Disk)
    requires Scene(d, Some(0), false)
    ensures History.RewritesReceipt(d, History.Delete(USER, 1, SessionWith(1), 2, 3))
  {
    SceneStarts(d, Some(0), 1);
    hide Server.StartsDeletion;
    assert Bytes32(0)[0] != Bytes32(1)[0];
  }

  lemma RunOne(d: Disk, step: History.Step)
    ensures History.Run(d, [step]) == History.After(d, step)
  {
    hide History.After;
    assert [step][..0] == [];
  }

  /** A deletion crashes after its receipt, a snapshot is taken, the session's CSRF token changes, the
      deletion is asked for again, and a second snapshot is taken: its ledger does not dominate the
      first one's, and the first one's data cannot be restored under it. */
  lemma RewrittenReceiptBreaksDominance(f: Fresh, g: Fresh)
    ensures var d := History.After(Begin(), History.Delete(USER, 1, SessionWith(0), 2, 1));
            var steps := [History.Delete(USER, 1, SessionWith(1), 2, 3)];
            var (now, older) := CreateSnapshot(d, f);
            var newer := CreateSnapshot(History.Run(now, steps), g).1;
            && older.Some? && newer.Some? && History.ClockOk(steps[0]) && History.RewritesReceipt(now, steps[0])
            && !Dominates(newer.value.manifest, older.value.manifest) && Restore(older.value, newer.value).None?
  {
    var d := History.After(Begin(), History.Delete(USER, 1, SessionWith(0), 2, 1));
    var step := History.Delete(USER, 1, SessionWith(1), 2, 3);
    assert History.ClockOk(step);
    hide *;
    BeginAccepted();
    SceneDeletes(Begin(), None, 0);
    DeletionAccepted(Begin(), 0, []);
    SceneAllows(d, Some(0), false);
    CleanAccepted(d, []);
    SceneTakes(d, f, Some(0), false, []);
    SecondSnapshot(d, f, g);
  }

  /** The second request and snapshot. */
  lemma SecondRequest(now: Disk, link: Link, g: Fresh)
    requires Scene(now, Some(0), false) && Top(BindingFile) in now.data && Accepted(now, DOMAIN, [link])
    ensures var later := History.After(now, History.Delete(USER, 1, SessionWith(1), 2, 3));
            CreateSnapshot(later, g).1.Some? && Scene(CreateSnapshot(later, g).0, Some(1), true)
  {
    hide *;
    SceneDeletes(now, Some(0), 1);
    DeletionAccepted(now, 1, [link]);
    var later := Disk(now.data, Ended(now, 1));
    SceneAllows(later, Some(1), true);
    CleanAccepted(later, [link]);
    SceneTakes(later, g, Some(1), true, [link]);
  }

  lemma NotDominated(d: Disk, f: Fresh, step: History.Step, g: Fresh)
    requires CreateSnapshot(d, f).1.Some? && History.ClockOk(step)
    requires var (now, older) := CreateSnapshot(d, f);
             var (end, newer) := CreateSnapshot(History.Run(now, [step]), g);
             Scene(now, Some(0), false) && newer.Some? && Scene(end, Some(1), true)
    ensures var (now, older) := CreateSnapshot(d, f);
            var newer := CreateSnapshot(History.Run(now, [step]), g).1;
            !Dominates(newer.value.manifest, older.value.manifest) && Restore(older.value, newer.value).None?
  {
    hide *;
    var now := CreateSnapshot(d, f).0;
    var later := History.Run(now, [step]);
    History.SnapshotLedger(d, f);
    History.SnapshotLedger(later, g);
    OtherReceipt(now, CreateSnapshot(later, g).0);
    History.LaterSnapshotDominates(d, f, [step], g);
  }

  /** The same from the first snapshot on. */
  lemma SecondSnapshot(d: Disk, f: Fresh, g: Fresh)
    requires CreateSnapshot(d, f).1.Some?
    requires var now := CreateSnapshot(d, f).0;
             && Scene(now, Some(0), false) && Top(BindingFile) in now.data
             && exists link :: Accepted(now, DOMAIN, [] + [link])
    ensures var step := History.Delete(USER, 1, SessionWith(1), 2, 3);
            var (now, older) := CreateSnapshot(d, f);
            var newer := CreateSnapshot(History.Run(now, [step]), g).1;
            && newer.Some? && History.RewritesReceipt(now, step)
            && !Dominates(newer.value.manifest, older.value.manifest) && Restore(older.value, newer.value).None?
  {
    var step := History.Delete(USER, 1, SessionWith(1), 2, 3);
    assert History.ClockOk(step);
    hide *;
    var now := CreateSnapshot(d, f).0;
    var link :| Accepted(now, DOMAIN, [] + [link]);
    assert [] + [link] == [link];
    Rewrites(now);
    RunOne(now, step);
    SecondRequest(now, link, g);
    NotDominated(d, f, step, g);
  }
}
