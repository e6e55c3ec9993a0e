/** How a deletion ledger may grow, and why the ledger of a later snapshot then dominates
    (scripts/restore_drill.py). */
module RecoveryGrowth {
  import opened Wire
  import opened RecoveryFiles
  import opened RecoveryLineage
  import opened RecoveryLedger
  import opened RecoveryAdvance
  import opened RecoveryRestore

  /** Files that nothing ever replaces or removes: all but the two records of an account, the
      temporary files of the recovery tool, and the receipts of deletions. */
  predicate Lasting(p: Path) {
    !MutableFile(p) && !(p.parents == [] && (p.name.PendingFile? || p.name.DeletionReceiptFile?))
  }

  ghost predicate Kept(before: Dir, after: Dir, p: Path) {
    p in before && before[p].File? ==> p in after && after[p] == before[p]
  }

  /** Lasting files stay and no mark falls. */
  ghost predicate Grows(before: Dir, after: Dir) {
    && LedgerOk(before) && LedgerOk(after)
    && (forall p :: Lasting(p) ==> Kept(before, after, p))
    && forall a :: a in Marks(before) ==> MarkKept(Marks(after), a, Marks(before)[a])
  }

  ghost predicate DeletionReceiptsKept(before: Dir, after: Dir) {
    forall user, byCookie, token :: Kept(before, after, Top(DeletionReceiptFile(user, byCookie, token)))
  }

  // ---------------------------------------------------------------- growing

  lemma GrowsReflexive(ledger: Dir)
    requires LedgerOk(ledger)
    ensures Grows(ledger, ledger)
  {
    hide LedgerOk, Marks;
  }

  lemma GrowsTransitive(a: Dir, b: Dir, c: Dir)
    requires Grows(a, b) && Grows(b, c)
    ensures Grows(a, c)
  {
    hide LedgerOk, Marks, MutableFile;
    forall x | x in Marks(a) ensures MarkKept(Marks(c), x, Marks(a)[x]) {
      assert MarkKept(Marks(b), x, Marks(a)[x]);
      assert MarkKept(Marks(c), x, Marks(b)[x]);
    }
    forall p | Lasting(p) ensures Kept(a, c, p) {
      assert Kept(a, b, p) && Kept(b, c, p);
    }
  }

  predicate AccountFile(p: Path) {
    p.parents == [] && (p.name.LifecycleFile? || p.name.TombstoneFile? || p.name.MalformedAccountFile?)
  }

  ghost predicate Same(before: Dir, after: Dir, p: Path) {
    (p in before <==> p in after) && (p in before ==> after[p] == before[p])
  }

  lemma SameEntry(before: Dir, after: Dir, a: Account)
    requires Same(before, after, Top(LifecycleFile(a))) && Same(before, after, Top(TombstoneFile(a)))
    ensures EntryOf(after, a) == EntryOf(before, a) && (AccountOk(after, a) <==> AccountOk(before, a))
    ensures a in Accounts(after) <==> a in Accounts(before)
  {
    AccountsAreFiles(after, a);
    AccountsAreFiles(before, a);
  }

  /** A change that leaves the account files alone changes no mark. */
  lemma SameMarks(before: Dir, after: Dir)
    requires forall p :: AccountFile(p) ==> Same(before, after, p)
    ensures LedgerOk(after) <==> LedgerOk(before)
    ensures LedgerOk(before) ==> Marks(after) == Marks(before)
  {
    forall a
      ensures EntryOf(after, a) == EntryOf(before, a) && (AccountOk(after, a) <==> AccountOk(before, a))
          && (a in Accounts(after) <==> a in Accounts(before))
    {
      assert AccountFile(Top(LifecycleFile(a))) && AccountFile(Top(TombstoneFile(a)));
      SameEntry(before, after, a);
    }
    hide EntryOf, AccountOk, Accounts;
    forall p | AccountFile(p) ensures p in before <==> p in after {
      assert Same(before, after, p);
    }
    if LedgerOk(before) { assert Marks(after).Keys == Marks(before).Keys; }
  }

  /** Any change to files that are neither lasting nor an account's. */
  lemma OtherFilesGrow(before: Dir, after: Dir)
    requires LedgerOk(before)
    requires forall p :: AccountFile(p) ==> Same(before, after, p)
    requires forall p :: Lasting(p) ==> Kept(before, after, p)
    ensures Grows(before, after)
  {
    SameMarks(before, after);
    hide LedgerOk, Marks, Lasting, AccountFile, Kept;
  }

  /** A change to the two files of one account that lets its mark rise. */
  lemma AccountGrows(before: Dir, after: Dir, a: Account)
    requires LedgerOk(before) && AccountOk(after, a)
    requires forall p :: p != Top(LifecycleFile(a)) && p != Top(TombstoneFile(a)) ==> Same(before, after, p)
    requires a in Marks(before) ==>
          Rises(Marks(before)[a], Normalize(EntryOf(after, a)).value)
              && (Top(LifecycleFile(a)) in after || Top(TombstoneFile(a)) in after)
    ensures Grows(before, after)
  {
    forall x | x != a
      ensures EntryOf(after, x) == EntryOf(before, x) && (AccountOk(after, x) <==> AccountOk(before, x))
          && (x in Accounts(after) <==> x in Accounts(before))
    {
      SameEntry(before, after, x);
    }
    AccountsAreFiles(after, a);
    hide EntryOf, AccountOk, Accounts, Normalize;
    forall p | p in after ensures !(p.parents == [] && p.name.MalformedAccountFile?) {
      assert Same(before, after, p) || p == Top(LifecycleFile(a)) || p == Top(TombstoneFile(a));
    }
    assert LedgerOk(after);
    forall x | x in Marks(before) ensures MarkKept(Marks(after), x, Marks(before)[x]) {
    }
    forall p | Lasting(p) ensures Kept(before, after, p) {
      assert Same(before, after, p);
    }
  }

  predicate Rises(older: Mark, newer: Mark) {
    older.deletedGeneration <= newer.deletedGeneration && !RankBelow(newer, older)
  }

  // ---------------------------------------------------------------- growth means dominance

  /** Of two verified snapshots, the newer one bound to its newest receipt, with a ledger that has
      grown from the older one's: it dominates exactly when every deletion receipt is still what it
      was, and then the old data can be restored exactly as far as its databases fit. */
  lemma GrownLedgerDominates(older: Snapshot, newer: Snapshot, domain: Record, rn: seq<Link>)
    requires Verified(older) && Verified(newer) && Grows(older.ledger, newer.ledger)
    requires forall p :: p in older.ledger ==> !(p.parents == [] && p.name.PendingFile?)
    requires LoadDomain(newer.ledger) == Some(domain) && domain.Domain?
    requires LoadReceipts(newer.ledger, domain) == Success(rn) && newer.manifest.lineage.sequence == |rn|
    ensures Dominates(newer.manifest, older.manifest) <==> DeletionReceiptsKept(older.ledger, newer.ledger)
    ensures Restore(older, newer).Some?
        <==> DeletionReceiptsKept(older.ledger, newer.ledger) && DataFits(older.data, Marks(newer.ledger))
  {
    hide *;
    SameDomain(older, newer, domain);
    var ro := OlderChain(older, domain);
    ChainGrows(older.ledger, newer.ledger, domain, ro, rn);
    MarksAreKept(older, newer);
    ItemsKeptIff(older, newer);
    DominatesIff(newer.manifest, older.manifest);
    RestoreSucceedsIff(older, newer);
  }

  lemma OlderChain(older: Snapshot, domain: Record) returns (ro: seq<Link>)
    requires Verified(older) && LoadDomain(older.ledger) == Some(domain)
    ensures domain.Domain? && LoadReceipts(older.ledger, domain) == Success(ro)
        && older.manifest.lineage.sequence <= |ro|
  {
    hide LoadReceipts, LedgerAllows, DataFits, Marks;
    ro := LoadReceipts(older.ledger, domain).value;
  }

  lemma ReceiptGrows(older: Dir, newer: Dir, domain: Record, receipts: seq<Link>, i: nat)
    requires Grows(older, newer) && domain.Domain? && Chain(older, domain, receipts) && 1 <= i <= |receipts|
    ensures var p := Top(ReceiptFile(i)); p in older && p in newer && newer[p] == older[p]
  {
    hide LedgerOk, Marks, Chain;
    ReceiptFacts(older, domain, receipts, i - 1);
    assert Kept(older, newer, Top(ReceiptFile(i)));
  }

  lemma ChainGrows(older: Dir, newer: Dir, domain: Record, ro: seq<Link>, rn: seq<Link>)
    requires Grows(older, newer) && domain.Domain?
    requires LoadReceipts(older, domain) == Success(ro) && LoadReceipts(newer, domain) == Success(rn)
    ensures |ro| <= |rn| && ro <= rn
  {
    LoadsExactlyChains(older, domain, ro);
    LoadsExactlyChains(newer, domain, rn);
    hide *;
    forall i: nat | 1 <= i <= |ro|
      ensures var p := Top(ReceiptFile(i)); p in older && p in newer && newer[p] == older[p]
    {
      ReceiptGrows(older, newer, domain, ro, i);
    }
    ChainContinues(older, ro, newer, rn, domain, |ro|);
    assert ro[..|ro|] == ro;
  }

  lemma SameDomain(older: Snapshot, newer: Snapshot, domain: Record)
    requires Verified(older) && Verified(newer) && Grows(older.ledger, newer.ledger)
        && LoadDomain(newer.ledger) == Some(domain)
    ensures LoadDomain(older.ledger) == Some(domain)
        && older.manifest.lineage.domainId == newer.manifest.lineage.domainId
  {
    hide LoadReceipts, LoadBinding, LedgerOk, Marks, LedgerAllows;
    assert Kept(older.ledger, newer.ledger, Top(DomainFile));
  }

  lemma ItemKeptIff(older: Snapshot, newer: Snapshot, p: Path)
    requires Verified(older) && Verified(newer) && p in older.ledger
    ensures p in older.manifest.ledgerInventory
    ensures ItemKept(newer.manifest.ledgerInventory, p, older.manifest.ledgerInventory[p])
        <==> MutableFile(p) || Kept(older.ledger, newer.ledger, p)
  {
    hide LedgerAllows, ValidateLineage, Marks;
    assert p in InventoryOf(older.ledger) && older.manifest.ledgerInventory[p] == ItemOf(older.ledger[p]);
    assert p in newer.ledger ==> newer.manifest.ledgerInventory[p] == ItemOf(newer.ledger[p]);
    assert p in newer.manifest.ledgerInventory <==> p in newer.ledger;
  }

  lemma ItemsKeptIff(older: Snapshot, newer: Snapshot)
    requires Verified(older) && Verified(newer) && Grows(older.ledger, newer.ledger)
    requires forall p :: p in older.ledger ==> !(p.parents == [] && p.name.PendingFile?)
    ensures ItemsKept(newer.manifest.ledgerInventory, older.manifest.ledgerInventory, {})
        <==> DeletionReceiptsKept(older.ledger, newer.ledger)
  {
    assert older.manifest.ledgerInventory.Keys == older.ledger.Keys;
    assert forall p :: Lasting(p) ==> Kept(older.ledger, newer.ledger, p);
    hide Grows, Verified, ItemKept, MutableFile, Kept;
    forall p | p in older.ledger
      ensures ItemKept(newer.manifest.ledgerInventory, p, older.manifest.ledgerInventory[p])
          <==> MutableFile(p) || Kept(older.ledger, newer.ledger, p)
    {
      ItemKeptIff(older, newer, p);
    }
    ReceiptPaths(older.ledger, newer.ledger);
  }

  lemma ReceiptPaths(older: Dir, newer: Dir)
    requires forall p :: Lasting(p) ==> Kept(older, newer, p)
    requires forall p :: p in older ==> !(p.parents == [] && p.name.PendingFile?)
    ensures DeletionReceiptsKept(older, newer)
        <==> forall p :: p in older ==> MutableFile(p) || Kept(older, newer, p)
  {
    if DeletionReceiptsKept(older, newer) {
      forall p | p in older ensures MutableFile(p) || Kept(older, newer, p) {
        if p.parents == [] && p.name.DeletionReceiptFile? {
          assert p == Top(DeletionReceiptFile(p.name.user, p.name.byCookie, p.name.token));
        } else {
          assert MutableFile(p) || Lasting(p);
        }
      }
    }
    if forall p :: p in older ==> MutableFile(p) || Kept(older, newer, p) {
      forall user, byCookie, token ensures Kept(older, newer, Top(DeletionReceiptFile(user, byCookie, token))) {
        var p := Top(DeletionReceiptFile(user, byCookie, token));
        assert p in older ==> Kept(older, newer, p);
      }
    }
  }

  lemma MarksAreKept(older: Snapshot, newer: Snapshot)
    requires Verified(older) && Verified(newer) && Grows(older.ledger, newer.ledger)
    ensures MarksKept(newer.manifest.watermark, older.manifest.watermark, {})
  {
    hide LedgerOk, Marks, DataFits, ValidateLineage;
  }
}
