/** Snapshots, the dominance of one ledger over another, and the restore of old data under a newer
    trusted ledger (scripts/restore_drill.py). */
module RecoveryRestore {
  import opened Wire
  import opened RecoveryFiles
  import opened RecoveryLineage
  import opened RecoveryLedger

  datatype Manifest = Manifest(
    dataInventory: Inventory, ledgerInventory: Inventory, watermark: Watermark, lineage: Lineage)
  datatype Snapshot = Snapshot(data: Dir, ledger: Dir, manifest: Manifest)

  // ---------------------------------------------------------------- snapshots

  predicate LedgerAllows(data: Dir, ledger: Dir) {
    LedgerOk(ledger) && DataFits(data, Marks(ledger))
  }

  /** manifest_payload: what a snapshot of this data and ledger records, if both are acceptable. */
  function ManifestOf(data: Dir, ledger: Dir): Option<Manifest> {
    var lineage := ValidateLineage(data, ledger);
    if lineage.Failure? || !LedgerAllows(data, ledger) then None
    else Some(Manifest(InventoryOf(data), InventoryOf(ledger), Marks(ledger), lineage.value))
  }

  /** verify_snapshot: the manifest is the one of the copies beside it. */
  predicate Verified(s: Snapshot) {
    && InventoryOf(s.data) == s.manifest.dataInventory && InventoryOf(s.ledger) == s.manifest.ledgerInventory
    && LedgerAllows(s.data, s.ledger) && Marks(s.ledger) == s.manifest.watermark
    && ValidateLineage(s.data, s.ledger) == Success(s.manifest.lineage)
  }

  /** A manifest fits one data directory and one ledger only. */
  lemma ManifestIsBinding(a: Snapshot, b: Snapshot)
    requires Verified(a) && Verified(b) && a.manifest == b.manifest
    ensures a == b
  {
    InventoryIsFaithful(a.data, b.data);
    InventoryIsFaithful(a.ledger, b.ledger);
  }

  lemma FreshSnapshotVerifies(data: Dir, ledger: Dir)
    ensures ManifestOf(data, ledger).Some? <==> LedgerAllows(data, ledger) && ValidateLineage(data, ledger).Success?
    ensures ManifestOf(data, ledger).Some? ==> Verified(Snapshot(data, ledger, ManifestOf(data, ledger).value))
  {
  }

  // ---------------------------------------------------------------- dominance

  /** Python's comparison of (generation, is deleted): newer < older. */
  predicate RankBelow(newer: Mark, older: Mark) {
    newer.generation < older.generation
        || (newer.generation == older.generation && newer.state != Deleted && older.state == Deleted)
  }

  predicate MarkKept(newer: Watermark, a: Account, older: Mark) {
    a in newer && newer[a].deletedGeneration >= older.deletedGeneration && !RankBelow(newer[a], older)
  }

  /** mutable_ledger_file looks at the base name only. */
  predicate MutableFile(p: Path) {
    p.name.LifecycleFile? || p.name.TombstoneFile?
  }

  predicate ItemKept(newer: Inventory, p: Path, older: Item) {
    older.FileItem? && !MutableFile(p) ==> p in newer && newer[p] == older
  }

  /** require_ledger_dominates passes. */
  predicate Dominates(trusted: Manifest, baseline: Manifest) {
    && trusted.lineage.domainId == baseline.lineage.domainId
    && (forall a :: a in baseline.watermark ==> MarkKept(trusted.watermark, a, baseline.watermark[a]))
    && trusted.lineage.sequence >= baseline.lineage.sequence
    && (forall p :: p in baseline.ledgerInventory ==> ItemKept(trusted.ledgerInventory, p, baseline.ledgerInventory[p]))
  }

  ghost predicate MarksKept(newer: Watermark, older: Watermark, left: set<Account>) {
    forall a :: a in older && a !in left ==> MarkKept(newer, a, older[a])
  }

  ghost predicate ItemsKept(newer: Inventory, older: Inventory, left: set<Path>) {
    forall p :: p in older && p !in left ==> ItemKept(newer, p, older[p])
  }

  lemma DominatesIff(trusted: Manifest, baseline: Manifest)
    ensures Dominates(trusted, baseline) <==>
      trusted.lineage.domainId == baseline.lineage.domainId && MarksKept(trusted.watermark, baseline.watermark, {})
          && trusted.lineage.sequence >= baseline.lineage.sequence
          && ItemsKept(trusted.ledgerInventory, baseline.ledgerInventory, {})
  {
  }

  lemma NextMark(newer: Watermark, older: Watermark, left: set<Account>, a: Account)
    requires a in older && MarksKept(newer, older, left)
    ensures MarkKept(newer, a, older[a])
        <==> a in newer && !(newer[a].deletedGeneration < older[a].deletedGeneration) && !RankBelow(newer[a], older[a])
    ensures MarkKept(newer, a, older[a]) ==> MarksKept(newer, older, left - {a})
    ensures !MarkKept(newer, a, older[a]) ==> !MarksKept(newer, older, {})
  {
    hide RankBelow;
  }

  lemma NextItem(newer: Inventory, older: Inventory, left: set<Path>, p: Path)
    requires p in older && ItemsKept(newer, older, left)
    ensures ItemKept(newer, p, older[p]) ==> ItemsKept(newer, older, left - {p})
    ensures !ItemKept(newer, p, older[p]) ==> !ItemsKept(newer, older, {})
  {
    hide ItemKept;
  }

  /** require_ledger_dominates, entry by entry. */
  method RequireLedgerDominates(trusted: Manifest, baseline: Manifest) returns (ok: bool)
    ensures ok <==> Dominates(trusted, baseline)
  {
    DominatesIff(trusted, baseline);
    hide Dominates, RankBelow, MarkKept;
    if trusted.lineage.domainId != baseline.lineage.domainId { return false; }
    var accounts := baseline.watermark.Keys;
    while accounts != {}
      invariant accounts <= baseline.watermark.Keys && MarksKept(trusted.watermark, baseline.watermark, accounts)
      decreases |accounts|
    {
      hide MarksKept;
      var a :| a in accounts;
      NextMark(trusted.watermark, baseline.watermark, accounts, a);
      accounts := accounts - {a};
      var older := baseline.watermark[a];
      if a !in trusted.watermark { return false; }
      var newer := trusted.watermark[a];
      if newer.deletedGeneration < older.deletedGeneration || RankBelow(newer, older) { return false; }
    }
    if trusted.lineage.sequence < baseline.lineage.sequence { return false; }
    var paths := baseline.ledgerInventory.Keys;
    while paths != {}
      invariant paths <= baseline.ledgerInventory.Keys
      invariant ItemsKept(trusted.ledgerInventory, baseline.ledgerInventory, paths)
      decreases |paths|
    {
      hide ItemsKept, ItemKept;
      var p :| p in paths;
      NextItem(trusted.ledgerInventory, baseline.ledgerInventory, paths, p);
      paths := paths - {p};
      if !ItemKept(trusted.ledgerInventory, p, baseline.ledgerInventory[p]) { return false; }
    }
    return true;
  }

  lemma DominanceIsReflexive(m: Manifest)
    ensures Dominates(m, m)
  {
  }

  lemma DominanceIsTransitive(a: Manifest, b: Manifest, c: Manifest)
    requires Dominates(a, b) && Dominates(b, c)
    ensures Dominates(a, c)
  {
    forall x | x in c.watermark ensures MarkKept(a.watermark, x, c.watermark[x]) {
      assert MarkKept(b.watermark, x, c.watermark[x]);
      assert MarkKept(a.watermark, x, b.watermark[x]);
    }
    forall p | p in c.ledgerInventory ensures ItemKept(a.ledgerInventory, p, c.ledgerInventory[p]) {
      assert ItemKept(b.ledgerInventory, p, c.ledgerInventory[p]);
      if p in b.ledgerInventory { assert ItemKept(a.ledgerInventory, p, b.ledgerInventory[p]); }
    }
  }

  // ---------------------------------------------------------------- dominance implies lineage

  /** An immutable file of the older ledger is in the newer one, byte for byte. */
  lemma ImmutableFileKept(older: Snapshot, newer: Snapshot, p: Path)
    requires Verified(older) && Verified(newer) && Dominates(newer.manifest, older.manifest)
    requires p in older.ledger && older.ledger[p].File? && !MutableFile(p)
    ensures p in newer.ledger && newer.ledger[p] == older.ledger[p]
  {
    assert p in older.manifest.ledgerInventory && older.manifest.ledgerInventory[p] == ItemOf(older.ledger[p]);
    assert ItemKept(newer.manifest.ledgerInventory, p, older.manifest.ledgerInventory[p]);
    assert p in InventoryOf(newer.ledger);
  }

  lemma DomainKept(older: Snapshot, newer: Snapshot)
    requires Verified(older) && Verified(newer) && Dominates(newer.manifest, older.manifest)
    ensures LoadDomain(older.ledger).Some? && LoadDomain(newer.ledger) == LoadDomain(older.ledger)
  {
    hide LoadReceipts, LoadBinding;
    ImmutableFileKept(older, newer, Top(DomainFile));
  }

  lemma SameFileSameReceipt(a: Dir, b: Dir, domain: Record, n: nat, previous: Hex)
    requires domain.Domain? && Top(ReceiptFile(n)) in a && Top(ReceiptFile(n)) in b
        && a[Top(ReceiptFile(n))] == b[Top(ReceiptFile(n))]
    ensures ParseReceipt(a, domain, n, previous) == ParseReceipt(b, domain, n, previous)
  {
  }

  /** Of two chains, the one whose ledger keeps the other's receipt files continues it. */
  lemma {:induction false} ChainContinues(a: Dir, ra: seq<Link>, b: Dir, rb: seq<Link>, domain: Record, n: nat)
    requires domain.Domain? && Chain(a, domain, ra) && Chain(b, domain, rb) && n <= |ra|
    requires forall i: nat :: 1 <= i <= |ra| ==>
          Top(ReceiptFile(i)) in b && Top(ReceiptFile(i)) in a && b[Top(ReceiptFile(i))] == a[Top(ReceiptFile(i))]
    ensures n <= |rb| && ra[..n] == rb[..n]
    decreases n
  {
    hide ParseReceipt;
    if n > 0 {
      ChainContinues(a, ra, b, rb, domain, n - 1);
      NumbersAreFiles(b, n);
      SameFileSameReceipt(a, b, domain, n, DigestBefore(ra, n - 1));
      assert DigestBefore(ra, n - 1)
          == DigestBefore(rb, n - 1) by { if n > 1 { assert ra[..n - 1][n - 2] == rb[..n - 1][n - 2]; } }
      assert ParseReceipt(a, domain, n, DigestBefore(ra, n - 1)) == Some(ra[n - 1]);
      assert ParseReceipt(b, domain, n, DigestBefore(rb, n - 1)) == Some(rb[n - 1]);
      assert ra[..n] == ra[..n - 1] + [ra[n - 1]] && rb[..n] == rb[..n - 1] + [rb[n - 1]];
    }
  }

  lemma VerifiedLoads(s: Snapshot, domain: Record)
    requires Verified(s) && LoadDomain(s.ledger) == Some(domain)
    ensures domain.Domain? && LoadReceipts(s.ledger, domain).Success?
    ensures LoadBinding(s.data, domain, LoadReceipts(s.ledger, domain).value).Success?
  {
    hide LoadReceipts, LoadBinding, LedgerAllows;
  }

  lemma ReceiptFileKept(older: Snapshot, newer: Snapshot, domain: Record, receipts: seq<Link>, i: nat)
    requires Verified(older) && Verified(newer) && Dominates(newer.manifest, older.manifest)
    requires domain.Domain? && Chain(older.ledger, domain, receipts) && 1 <= i <= |receipts|
    ensures var p := Top(ReceiptFile(i)); p in older.ledger && p in newer.ledger && newer.ledger[p] == older.ledger[p]
  {
    hide Verified, Dominates, Chain;
    ReceiptFacts(older.ledger, domain, receipts, i - 1);
    ImmutableFileKept(older, newer, Top(ReceiptFile(i)));
  }

  lemma ReceiptsKept(older: Snapshot, newer: Snapshot) returns (domain: Record, ro: seq<Link>, rn: seq<Link>)
    requires Verified(older) && Verified(newer) && Dominates(newer.manifest, older.manifest)
    ensures domain.Domain? && LoadDomain(older.ledger) == LoadDomain(newer.ledger) == Some(domain)
    ensures LoadReceipts(older.ledger, domain) == Success(ro) && LoadReceipts(newer.ledger, domain) == Success(rn)
    ensures ro <= rn
  {
    DomainKept(older, newer);
    domain := LoadDomain(older.ledger).value;
    VerifiedLoads(older, domain);
    VerifiedLoads(newer, domain);
    ro := LoadReceipts(older.ledger, domain).value;
    rn := LoadReceipts(newer.ledger, domain).value;
    hide LoadReceipts, LoadDomain, LoadBinding, ParseReceipt, Verified, Dominates, Chain;
    LoadsExactlyChains(older.ledger, domain, ro);
    LoadsExactlyChains(newer.ledger, domain, rn);
    forall i: nat | 1 <= i <= |ro|
      ensures var p := Top(ReceiptFile(i)); p in older.ledger && p in newer.ledger && newer.ledger[p] == older.ledger[p]
    {
      ReceiptFileKept(older, newer, domain, ro, i);
    }
    ChainContinues(older.ledger, ro, newer.ledger, rn, domain, |ro|);
    assert ro[..|ro|] == ro;
  }

  /** If two snapshots verify and the trusted ledger dominates, the trusted chain continues the data
      snapshot's chain, and the old data validates against the trusted ledger with exactly the old
      manifest's lineage: the link check of a restore cannot fail. */
  lemma DominanceImpliesLineage(older: Snapshot, newer: Snapshot) returns (domain: Record, ro: seq<Link>, rn: seq<Link>)
    requires Verified(older) && Verified(newer) && Dominates(newer.manifest, older.manifest)
    ensures domain.Domain? && LoadReceipts(older.ledger, domain) == Success(ro)
        && LoadReceipts(newer.ledger, domain) == Success(rn) && ro <= rn
    ensures ValidateLineage(older.data, newer.ledger) == Success(older.manifest.lineage)
  {
    domain, ro, rn := ReceiptsKept(older, newer);
    VerifiedLoads(older, domain);
    hide LoadReceipts, LoadBinding, LoadDomain, LedgerAllows, Dominates;
    BindingOnLonger(older.data, domain, ro, rn);
  }

  lemma BindingOnLonger(data: Dir, domain: Record, short: seq<Link>, long: seq<Link>)
    requires domain.Domain? && short <= long && LoadBinding(data, domain, short).Success?
    ensures LoadBinding(data, domain, long) == LoadBinding(data, domain, short)
  {
    if Top(BindingFile) in data && PrivateJson(data, BindingFile).Some?
        && PrivateJson(data, BindingFile).value.Binding? {
      var v := PrivateJson(data, BindingFile).value.payload;
      assert v.BindingPayload? ==> short[v.sequence - 1] == long[v.sequence - 1];
    }
  }

  // ---------------------------------------------------------------- restore

  /** restore_snapshot into two paths that do not exist: the restored data and ledger. */
  function Restore(s: Snapshot, trusted: Snapshot): Option<(Dir, Dir)> {
    if !Verified(s) || !Verified(trusted) || !Dominates(trusted.manifest, s.manifest) then None
    else if !LedgerAllows(s.data, trusted.ledger) then None
    else if ValidateLineage(s.data, trusted.ledger) != Success(s.manifest.lineage) then None
    else Some((s.data, trusted.ledger))
  }

  /** A restore succeeds exactly when both snapshots verify, the trusted ledger dominates, and every
      account database fits the trusted ledger; it then yields the old data and the new ledger. */
  lemma RestoreSucceedsIff(s: Snapshot, trusted: Snapshot)
    ensures Restore(s, trusted).Some? <==>
      Verified(s) && Verified(trusted) && Dominates(trusted.manifest, s.manifest)
          && DataFits(s.data, Marks(trusted.ledger))
    ensures Restore(s, trusted).Some? ==> Restore(s, trusted).value == (s.data, trusted.ledger)
  {
    hide ValidateLineage, LedgerOk, DataFits, Marks, Dominates;
    if Verified(s) && Verified(trusted) && Dominates(trusted.manifest, s.manifest) {
      var _, _, _ := DominanceImpliesLineage(s, trusted);
    }
  }

  /** Restoring a verified snapshot with its own ledger always succeeds. */
  lemma RestoreOfItself(s: Snapshot)
    requires Verified(s)
    ensures Restore(s, s) == Some((s.data, s.ledger))
  {
    DominanceIsReflexive(s.manifest);
    RestoreSucceedsIff(s, s);
  }

  /** A restore never brings a deletion back: whatever generation the old ledger had deleted is
      deleted in the restored one, an account's rank is not lowered, and every restored database is
      at or below its account's deletion or is exactly the active lifecycle generation. */
  lemma RestoreNeverUndeletes(s: Snapshot, trusted: Snapshot)
    requires Restore(s, trusted).Some?
    ensures var (data, ledger) := Restore(s, trusted).value;
            && LedgerOk(s.ledger) && LedgerOk(ledger)
            && (forall a :: a in Marks(s.ledger) ==> MarkKept(Marks(ledger), a, Marks(s.ledger)[a]))
            && Users(data).Some?
            && forall u :: u in Users(data).value ==>
                  OfUser(u) in Marks(ledger) && Fits(data, u, Marks(ledger)[OfUser(u)])
  {
  }

  /** A chain of restores, each under a ledger that dominates the one before, keeps every deletion
      that the first ledger recorded. */
  lemma {:induction false} DeletionsSurvive(history: seq<Manifest>, i: nat, j: nat, a: Account)
    requires forall k :: 0 <= k < |history| - 1 ==> Dominates(history[k + 1], history[k])
    requires i <= j < |history| && a in history[i].watermark
    ensures a in history[j].watermark
        && history[i].watermark[a].deletedGeneration <= history[j].watermark[a].deletedGeneration
    ensures Dominates(history[j], history[i])
    decreases j
  {
    if i == j {
      DominanceIsReflexive(history[i]);
    } else {
      DeletionsSurvive(history, i, j - 1, a);
      assert Dominates(history[j - 1 + 1], history[j - 1]);
      DominanceIsTransitive(history[j], history[j - 1], history[i]);
      assert MarkKept(history[j].watermark, a, history[i].watermark[a]);
    }
  }
}
