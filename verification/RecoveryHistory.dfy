/** Everything that changes live storage between two snapshots, in any order and with crashes: the
    recovery tool's snapshots and enrollments (scripts/restore_drill.py) and the server's deletions,
    new accounts and obligations (internal/store). A later snapshot's ledger dominates an earlier
    one's, but for one kind of file. */
module RecoveryHistory {
  import opened Wire
  import opened RecoveryFiles
  import opened RecoveryLineage
  import opened RecoveryLedger
  import opened RecoveryAdvance
  import opened RecoveryRestore
  import opened RecoverySnapshots
  import opened RecoveryGrowth
  import Enrollment = RecoveryEnrollment
  import Server = DeletionLedger

  // ---------------------------------------------------------------- what the server's writes do

  /** A new lifecycle record, as recordAccountLifecycle allows it. */
  lemma LifecycleRises(e: Entry, generation: int, state: State, now: int)
    requires e.lifecycle.Some? || e.tombstone.Some? ==> EntryOk(e) && Normalize(e).Some?
    requires ValidGeneration(generation) && ValidGeneration(now)
    requires e.lifecycle.Some? ==> e.lifecycle.value.generation <= generation
    requires state == Deleted ==> e.tombstone.Some? && generation <= e.tombstone.value.deletedGeneration
    ensures var after := Entry(Some(Lifecycle(VERSION, generation, Some(state), now)), e.tombstone);
            && EntryOk(after) && Normalize(after).Some?
            && (e.lifecycle.Some? || e.tombstone.Some? ==> Rises(Normalize(e).value, Normalize(after).value))
  {
  }

  /** A new tombstone at or above the old one. */
  lemma TombstoneRises(e: Entry, generation: int, now: int)
    requires e.lifecycle.Some? || e.tombstone.Some? ==> EntryOk(e) && Normalize(e).Some?
    requires ValidGeneration(generation) && ValidGeneration(now)
    requires e.tombstone.Some? ==> e.tombstone.value.deletedGeneration <= generation
    ensures var after := Entry(e.lifecycle, Some(Tombstone(VERSION, generation, now)));
            && EntryOk(after) && Normalize(after).Some?
            && (e.lifecycle.Some? || e.tombstone.Some? ==> Rises(Normalize(e).value, Normalize(after).value))
  {
  }

  /** The records of an account in an acceptable ledger, if it has any. */
  lemma EntryFacts(ledger: Dir, a: Account)
    requires LedgerOk(ledger)
    ensures var e := EntryOf(ledger, a);
            && (a in Accounts(ledger) <==> e.lifecycle.Some? || e.tombstone.Some?)
            && (a in Accounts(ledger) ==> a in Marks(ledger) && EntryOk(e) && Normalize(e) == Some(Marks(ledger)[a]))
            && (Top(LifecycleFile(a)) in ledger <==> e.lifecycle.Some?)
            && (Top(TombstoneFile(a)) in ledger <==> e.tombstone.Some?)
  {
    AccountsAreFiles(ledger, a);
    if a in Accounts(ledger) { Enrollment.AccountIsOk(ledger, a); }
  }

  /** The server and the recovery tool read the same records. */
  lemma ServerReadsTheSame(ledger: Dir, a: Account)
    requires LedgerOk(ledger)
    ensures var d := Server.StoredDeletion(ledger, a);
            var tombstone := EntryOf(ledger, a).tombstone;
            d.Some? ==> d.value == (if tombstone.Some? then tombstone.value.deletedGeneration else 0)
    ensures var l := Server.StoredLifecycle(ledger, a);
            var lifecycle := EntryOf(ledger, a).lifecycle;
            l.Some? ==> l.value == (if lifecycle.Some? then lifecycle.value else Server.NO_LIFECYCLE)
  {
    EntryFacts(ledger, a);
  }

  lemma WriteLifecycle(ledger: Dir, a: Account, generation: int, state: State, now: int)
    requires LedgerOk(ledger) && ValidGeneration(generation) && ValidGeneration(now)
    requires var e := EntryOf(ledger, a);
             && (e.lifecycle.Some? ==> e.lifecycle.value.generation <= generation)
             && (state == Deleted ==> e.tombstone.Some? && generation <= e.tombstone.value.deletedGeneration)
    ensures Grows(ledger, WithJson(ledger, LifecycleFile(a), Lifecycle(VERSION, generation, Some(state), now)))
  {
    var after := WithJson(ledger, LifecycleFile(a), Lifecycle(VERSION, generation, Some(state), now));
    EntryFacts(ledger, a);
    LifecycleRises(EntryOf(ledger, a), generation, state, now);
    assert EntryOf(after, a).lifecycle == Some(Lifecycle(VERSION, generation, Some(state), now));
    assert EntryOf(after, a).tombstone == EntryOf(ledger, a).tombstone;
    assert AccountOk(after, a);
    hide Normalize, AccountOk, EntryOf, LedgerOk, Marks, EntryOk;
    AccountGrows(ledger, after, a);
  }

  lemma WriteTombstone(ledger: Dir, a: Account, generation: int, now: int)
    requires LedgerOk(ledger) && ValidGeneration(generation) && ValidGeneration(now)
    requires var e := EntryOf(ledger, a); e.tombstone.Some? ==> e.tombstone.value.deletedGeneration <= generation
    ensures var tombstone := Tombstone(VERSION, generation, now);
            var after := WithJson(ledger, TombstoneFile(a), tombstone);
            Grows(ledger, after) && EntryOf(after, a) == Entry(EntryOf(ledger, a).lifecycle, Some(tombstone))
  {
    var after := WithJson(ledger, TombstoneFile(a), Tombstone(VERSION, generation, now));
    EntryFacts(ledger, a);
    TombstoneRises(EntryOf(ledger, a), generation, now);
    assert EntryOf(after, a).tombstone == Some(Tombstone(VERSION, generation, now));
    assert EntryOf(after, a).lifecycle == EntryOf(ledger, a).lifecycle;
    assert AccountOk(after, a);
    hide Normalize, AccountOk, EntryOf, LedgerOk, Marks, EntryOk;
    AccountGrows(ledger, after, a);
  }

  /** Every ledger of a list has grown from the first one. */
  ghost predicate AllGrow(ledger: Dir, writes: seq<Dir>) {
    forall i :: 0 <= i < |writes| ==> Grows(ledger, writes[i])
  }

  lemma RecordLifecycleGrows(ledger: Dir, user: string, generation: int, state: State, now: int)
    requires LedgerOk(ledger) && ValidGeneration(now)
    requires state == Deleted ==>
        var e := EntryOf(ledger, OfUser(user));
        e.tombstone.Some? && generation <= e.tombstone.value.deletedGeneration
    ensures AllGrow(ledger, Server.RecordLifecycle(ledger, user, generation, state, now).writes)
  {
    hide LedgerOk, Grows, EntryOf, WithJson, Server.StoredLifecycle;
    ServerReadsTheSame(ledger, OfUser(user));
    if Server.RecordLifecycle(ledger, user, generation, state, now).ok {
      WriteLifecycle(ledger, OfUser(user), generation, state, now);
    }
  }

  lemma RecordDeletedGrows(ledger: Dir, user: string, generation: int, now: int)
    requires LedgerOk(ledger) && ValidGeneration(now)
    requires var e := EntryOf(ledger, OfUser(user));
        e.tombstone.Some? && generation <= e.tombstone.value.deletedGeneration
    ensures AllGrow(ledger, Server.RecordDeletedLifecycle(ledger, user, generation, now).writes)
  {
    hide LedgerOk, Grows, EntryOf;
    RecordLifecycleGrows(ledger, user, generation, Deleted, now);
  }

  lemma GrowThrough(a: Dir, b: Dir, writes: seq<Dir>)
    requires Grows(a, b) && AllGrow(b, writes)
    ensures AllGrow(a, [b] + writes)
  {
    hide Grows;
    forall i | 0 <= i < |[b] + writes| ensures Grows(a, ([b] + writes)[i]) {
      if i > 0 { GrowsTransitive(a, b, writes[i - 1]); }
    }
  }

  lemma RecordDeletionGrows(data: Dir, ledger: Dir, user: string, generation: int, now: int)
    requires LedgerOk(ledger) && ValidGeneration(now)
    ensures AllGrow(ledger, Server.RecordDeletion(data, ledger, user, generation, now).writes)
  {
    var current := Server.CurrentDeletion(data, ledger, user);
    assert current.Some? ==> current == Server.StoredDeletion(ledger, OfUser(user));
    hide LedgerOk, Grows, EntryOf, Server.CurrentDeletion, Server.RecordDeletedLifecycle, WithJson, AllGrow;
    var writes := Server.RecordDeletion(data, ledger, user, generation, now).writes;
    if writes == [] {
      NoWrites(ledger);
    } else {
      var g := if current.value > generation then current.value else generation;
      ServerReadsTheSame(ledger, OfUser(user));
      WriteTombstone(ledger, OfUser(user), g, now);
      RecordDeletedGrows(writes[0], user, g, now);
      GrowThrough(ledger, writes[0], Server.RecordDeletedLifecycle(writes[0], user, g, now).writes);
    }
  }

  lemma NoWrites(ledger: Dir)
    ensures AllGrow(ledger, [])
  {
  }

  lemma WriteReceipt(ledger: Dir, user: string, s: Server.Session, r: Record)
    requires LedgerOk(ledger)
    ensures Grows(ledger, WithJson(ledger, Server.ReceiptName(user, s), r))
  {
    var after := WithJson(ledger, Server.ReceiptName(user, s), r);
    assert forall p :: AccountFile(p) ==> Same(ledger, after, p);
    assert forall p :: Lasting(p) ==> Kept(ledger, after, p);
    OtherFilesGrow(ledger, after);
  }

  lemma DeleteUserGrows(data: Dir, ledger: Dir, user: string, generation: int, s: Server.Session, now: int)
    requires LedgerOk(ledger) && ValidGeneration(now)
    ensures AllGrow(ledger, Server.DeleteUser(data, ledger, user, generation, s, now).writes)
  {
    hide LedgerOk, Grows, WithJson, AllGrow, Server.RecordDeletion, Server.CommittedReceipt, Server.StartsDeletion;
    NoWrites(ledger);
    if Server.StartsDeletion(data, ledger, user, generation, s) {
      var receipt := DeletionReceipt(VERSION, generation, s.csrfHash);
      var announced := WithJson(ledger, Server.ReceiptName(user, s), receipt);
      WriteReceipt(ledger, user, s, receipt);
      assert LedgerOk(announced) by { GrownIsOk(ledger, announced); }
      RecordDeletionGrows(data, announced, user, generation, now);
      GrowThrough(ledger, announced, Server.RecordDeletion(data, announced, user, generation, now).writes);
    }
  }

  lemma GrownIsOk(before: Dir, after: Dir)
    requires Grows(before, after)
    ensures LedgerOk(after)
  {
  }

  lemma OpenUserGrows(data: Dir, ledger: Dir, user: string, now: int)
    requires LedgerOk(ledger) && ValidGeneration(now)
    ensures AllGrow(ledger, Server.OpenUser(data, ledger, user, now).writes)
  {
    hide LedgerOk, Grows, AllGrow, Server.CurrentDeletion, Server.RecordLifecycle, EntryOf;
    NoWrites(ledger);
    var deleted := Server.CurrentDeletion(data, ledger, user);
    if deleted.Some? {
      RecordLifecycleGrows(ledger, user, deleted.value + 1, Active, now);
    }
  }

  lemma ApplyObligationGrows(data: Dir, ledger: Dir, user: string, now: int)
    requires LedgerOk(ledger) && ValidGeneration(now)
    ensures AllGrow(ledger, Server.ApplyObligation(data, ledger, user, now).writes)
  {
    var deleted := Server.CurrentDeletion(data, ledger, user);
    assert deleted.Some? ==> deleted == Server.StoredDeletion(ledger, OfUser(user));
    hide LedgerOk, Grows, AllGrow, EntryOf, Server.CurrentDeletion, Server.RecordDeletedLifecycle,
        Server.StoredLifecycle, Server.StoredDeletion;
    NoWrites(ledger);
    ServerReadsTheSame(ledger, OfUser(user));
    if deleted.Some? && deleted.value > 0 {
      RecordDeletedGrows(ledger, user, deleted.value, now);
      var g := if HasMain(data, user) then StoredGeneration(data, user) else None;
      if g.Some? && g.value <= deleted.value { RecordDeletedGrows(ledger, user, g.value, now); }
    }
  }

  // ---------------------------------------------------------------- what the recovery tool does

  /** A recovery record under a new name. */
  lemma WriteRecovery(ledger: Dir, n: Name, r: Record)
    requires LedgerOk(ledger) && (n.DomainFile? || n.ReceiptFile?) && Top(n) !in ledger
    ensures Grows(ledger, WithJson(ledger, n, r))
  {
    var after := WithJson(ledger, n, r);
    assert forall p :: AccountFile(p) ==> Same(ledger, after, p);
    assert forall p :: Lasting(p) ==> Kept(ledger, after, p);
    OtherFilesGrow(ledger, after);
  }

  ghost predicate AllDisksGrow(ledger: Dir, states: seq<Disk>) {
    forall i :: 0 <= i < |states| ==> Grows(ledger, states[i].ledger)
  }

  lemma EnsureGrows(ledger: Dir, f: Fresh)
    requires LedgerOk(ledger) && EnsureDomain(ledger, f).Success?
    ensures Grows(ledger, EnsureDomain(ledger, f).value.0)
  {
    hide LedgerOk, Grows, LoadDomain, Numbers, MalformedReceiptName, WithJson;
    if Top(DomainFile) in ledger { GrowsReflexive(ledger); } else { WriteRecovery(ledger, DomainFile, NewDomain(f)); }
  }

  /** An advance lets the ledger grow at each of its writes. */
  lemma AdvanceGrows(d: Disk, f: Fresh)
    requires LedgerOk(d.ledger)
    ensures AllDisksGrow(d.ledger, Advance(d, f).0)
  {
    hide LedgerOk, Grows, WithJson, EnsureDomain, Check;
    if EnsureDomain(d.ledger, f).Success? {
      EnsureGrows(d.ledger, f);
      EnsuredIsDomain(d.ledger, f);
      var (ledger, domain) := EnsureDomain(d.ledger, f).value;
      GrownIsOk(d.ledger, ledger);
      var checked := Check(d.data, ledger, domain);
      if checked.Success? {
        NextIsNew(d.data, ledger, domain, checked.value);
        var p := NextReceipt(domain, checked.value, DataDigest(d.data));
        WriteRecovery(ledger, ReceiptFile(p.sequence), ReceiptRecord(domain, p));
        GrowsTransitive(d.ledger, ledger, WithJson(ledger, ReceiptFile(p.sequence), ReceiptRecord(domain, p)));
      }
    }
  }

  /** Removing temporary files of the recovery tool, all of them or some. */
  lemma CleanupGrows(ledger: Dir, after: Dir)
    requires LedgerOk(ledger)
    requires forall p: Path :: !(p.parents == [] && p.name.PendingFile?) ==> Same(ledger, after, p)
    ensures Grows(ledger, after)
  {
    assert forall p :: AccountFile(p) ==> Same(ledger, after, p);
    assert forall p :: Lasting(p) ==> Kept(ledger, after, p);
    OtherFilesGrow(ledger, after);
  }

  /** A temporary file that a crash leaves under a name of its own. */
  lemma LeftoverGrows(ledger: Dir, n: Name, node: Node)
    requires LedgerOk(ledger) && Top(n) !in ledger && (n.PendingFile? || n.OtherName?)
    ensures Grows(ledger, ledger[Top(n) := node])
  {
    var after := ledger[Top(n) := node];
    assert forall p :: AccountFile(p) ==> Same(ledger, after, p);
    assert forall p :: Lasting(p) ==> Kept(ledger, after, p);
    OtherFilesGrow(ledger, after);
  }

  /** Enrollment adds records under new names and lowers no mark, whatever part of it gets through. */
  lemma EnrollmentGrows(data: Dir, ledger: Dir, plan: Enrollment.Plan, now: int)
    requires Enrollment.PartOfPlan(data, ledger, plan) && ValidGeneration(now)
    ensures Grows(ledger, Enrollment.WithPlan(ledger, plan, now))
  {
    assert LedgerOk(ledger);
    var after := Enrollment.WithPlan(ledger, plan, now);
    forall p | Lasting(p) ensures Kept(ledger, after, p) {
      Enrollment.PathOfPlan(ledger, plan, now, p);
    }
    hide *;
    hide Enrollment.PartOfPlan, Enrollment.WithPlan;
    Enrollment.EnrollmentNeverLowers(data, ledger, plan, now);
    MarksGrow(ledger, after);
  }

  lemma MarksGrow(before: Dir, after: Dir)
    requires LedgerOk(before) && LedgerOk(after) && forall p :: Lasting(p) ==> Kept(before, after, p)
    requires forall a :: a in Marks(before) ==>
          a in Marks(after) && Marks(before)[a].deletedGeneration == Marks(after)[a].deletedGeneration
              && Enrollment.RankAtMost(Marks(before)[a], Marks(after)[a])
    ensures Grows(before, after)
  {
    hide LedgerOk, Marks, Kept, Lasting;
  }

  // ---------------------------------------------------------------- any history

  /** One thing that happens to live storage. A number of writes says where a crash stops an operation
      that writes several files; `Change` is anything at all that happens to the account data. */
  datatype Step =
    | Take(identity: Fresh)
    | CrashedTake(identity: Fresh, writes: nat)
    | CrashedCleanup(kept: set<Path>)
    | Enroll(unwritten: set<string>, now: int)
    | Delete(user: string, generation: int, session: Server.Session, now: int, writes: nat)
    | RecordOnly(user: string, generation: int, now: int, writes: nat)
    | Open(user: string, now: int)
    | Oblige(user: string, now: int)
    | Change(data: Dir)
    | Leftover(name: Name, node: Node)

  /** The clock is after the epoch and within the range of a record. */
  predicate ClockOk(step: Step) {
    step.Enroll? || step.Delete? || step.RecordOnly? || step.Open? || step.Oblige? ==> ValidGeneration(step.now)
  }

  function Cut(ledger: Dir, writes: seq<Dir>, n: nat): Dir {
    if n == 0 then ledger else if n <= |writes| then writes[n - 1] else Server.Last(ledger, writes)
  }

  function CutTake(d: Disk, f: Fresh, n: nat): Disk {
    var clean := Cleaned(d);
    var states := Advance(clean, f).0;
    if !LedgerAllows(clean.data, clean.ledger) || n == 0 || n > |states| then clean else states[n - 1]
  }

  function Swept(ledger: Dir, kept: set<Path>): Dir {
    map p | p in ledger && (p in kept || !(p.parents == [] && p.name.PendingFile?)) :: ledger[p]
  }

  /** The ledger when an enrollment ends, or is cut off before it wrote some of its records. */
  function Enrolled(d: Disk, unwritten: set<string>, now: int): Dir {
    if !LedgerOk(d.ledger) || !Enrollment.Plannable(d.data, d.ledger, Marks(d.ledger)) then d.ledger
    else Enrollment.WithPlan(d.ledger, Enrollment.PlanOf(d.data, d.ledger, Marks(d.ledger)) - unwritten, now)
  }

  /** The server's steps touch the ledger only. */
  function ServerLedger(d: Disk, step: Step): Dir {
    match step
    case Delete(user, generation, s, now, n) =>
      Cut(d.ledger, Server.DeleteUser(d.data, d.ledger, user, generation, s, now).writes, n)
    case RecordOnly(user, generation, now, n) =>
      Cut(d.ledger, Server.RecordDeletion(d.data, d.ledger, user, generation, now).writes, n)
    case Open(user, now) => Server.Last(d.ledger, Server.OpenUser(d.data, d.ledger, user, now).writes)
    case Oblige(user, now) => Server.Last(d.ledger, Server.ApplyObligation(d.data, d.ledger, user, now).writes)
    case _ => d.ledger
  }

  function After(d: Disk, step: Step): Disk {
    match step
    case Take(f) => CreateSnapshot(d, f).0
    case CrashedTake(f, n) => CutTake(d, f, n)
    case CrashedCleanup(kept) => Disk(d.data, Swept(d.ledger, kept))
    case Enroll(unwritten, now) => Disk(d.data, Enrolled(d, unwritten, now))
    case Change(data) => Disk(data, d.ledger)
    case Leftover(n, node) =>
      if Top(n) !in d.ledger && (n.PendingFile? || n.OtherName?) then Disk(d.data, d.ledger[Top(n) := node]) else d
    case _ => Disk(d.data, ServerLedger(d, step))
  }

  function Run(d: Disk, steps: seq<Step>): Disk
    decreases |steps|
  {
    if steps == [] then d else After(Run(d, steps[..|steps| - 1]), steps[|steps| - 1])
  }

  lemma CutGrows(ledger: Dir, writes: seq<Dir>, n: nat)
    requires LedgerOk(ledger) && AllGrow(ledger, writes)
    ensures Grows(ledger, Cut(ledger, writes, n)) && Grows(ledger, Server.Last(ledger, writes))
  {
    GrowsReflexive(ledger);
    hide Grows, LedgerOk;
  }

  lemma ServerGrows(d: Disk, step: Step)
    requires LedgerOk(d.ledger) && ClockOk(step)
    ensures Grows(d.ledger, ServerLedger(d, step))
  {
    hide Grows, LedgerOk, AllGrow, Cut, Server.DeleteUser, Server.RecordDeletion, Server.OpenUser,
        Server.ApplyObligation, Server.Last;
    match step {
      case Delete(user, generation, s, now, n) =>
        DeleteUserGrows(d.data, d.ledger, user, generation, s, now);
        CutGrows(d.ledger, Server.DeleteUser(d.data, d.ledger, user, generation, s, now).writes, n);
      case RecordOnly(user, generation, now, n) =>
        RecordDeletionGrows(d.data, d.ledger, user, generation, now);
        CutGrows(d.ledger, Server.RecordDeletion(d.data, d.ledger, user, generation, now).writes, n);
      case Open(user, now) =>
        OpenUserGrows(d.data, d.ledger, user, now);
        CutGrows(d.ledger, Server.OpenUser(d.data, d.ledger, user, now).writes, 0);
      case Oblige(user, now) =>
        ApplyObligationGrows(d.data, d.ledger, user, now);
        CutGrows(d.ledger, Server.ApplyObligation(d.data, d.ledger, user, now).writes, 0);
      case _ => GrowsReflexive(d.ledger);
    }
  }

  lemma CleanGrows(d: Disk)
    requires LedgerOk(d.ledger)
    ensures Grows(d.ledger, Cleaned(d).ledger)
  {
    CleanupGrows(d.ledger, Cleaned(d).ledger);
  }

  /** A snapshot lets the ledger grow, wherever it stops. */
  lemma TakeGrows(d: Disk, f: Fresh, n: nat)
    requires LedgerOk(d.ledger)
    ensures Grows(d.ledger, CreateSnapshot(d, f).0.ledger) && Grows(d.ledger, CutTake(d, f, n).ledger)
  {
    var clean := Cleaned(d);
    CleanGrows(d);
    GrownIsOk(d.ledger, clean.ledger);
    AdvanceGrows(clean, f);
    hide Grows, LedgerOk, Cleaned, LedgerAllows, Advance, ManifestOf;
    var states := Advance(clean, f).0;
    forall i | 0 <= i < |states| ensures Grows(d.ledger, states[i].ledger) {
      GrowsTransitive(d.ledger, clean.ledger, states[i].ledger);
    }
  }

  lemma EnrolledGrows(d: Disk, unwritten: set<string>, now: int)
    requires LedgerOk(d.ledger) && ValidGeneration(now)
    ensures Grows(d.ledger, Enrolled(d, unwritten, now))
  {
    hide Grows, LedgerOk, Enrollment.WithPlan, Enrollment.Plannable, Enrollment.PlanOf, Marks;
    if Enrollment.Plannable(d.data, d.ledger, Marks(d.ledger)) {
      var plan := Enrollment.PlanOf(d.data, d.ledger, Marks(d.ledger));
      Enrollment.PartsOfPlan(d.data, d.ledger, plan, unwritten);
      EnrollmentGrows(d.data, d.ledger, plan - unwritten, now);
    } else {
      GrowsReflexive(d.ledger);
    }
  }

  lemma StepGrows(d: Disk, step: Step)
    requires LedgerOk(d.ledger) && ClockOk(step)
    ensures Grows(d.ledger, After(d, step).ledger)
  {
    hide Grows, LedgerOk, CreateSnapshot, CutTake, ServerLedger, Swept, Enrolled;
    match step {
      case Take(f) => TakeGrows(d, f, 0);
      case CrashedTake(f, n) => TakeGrows(d, f, n);
      case CrashedCleanup(kept) => CleanupGrows(d.ledger, Swept(d.ledger, kept)) by { SweptSame(d.ledger, kept); }
      case Enroll(unwritten, now) => EnrolledGrows(d, unwritten, now);
      case Leftover(n, node) =>
        if Top(n) !in d.ledger && (n.PendingFile? || n.OtherName?) { LeftoverGrows(d.ledger, n, node); }
        else { GrowsReflexive(d.ledger); }
      case Change(_) => GrowsReflexive(d.ledger);
      case _ => ServerGrows(d, step);
    }
  }

  lemma SweptSame(ledger: Dir, kept: set<Path>)
    ensures forall p: Path :: !(p.parents == [] && p.name.PendingFile?) ==> Same(ledger, Swept(ledger, kept), p)
  {
  }

  /** Whatever happens, the ledger has grown. */
  lemma {:induction false} RunGrows(d: Disk, steps: seq<Step>)
    requires LedgerOk(d.ledger) && forall step :: step in steps ==> ClockOk(step)
    ensures Grows(d.ledger, Run(d, steps).ledger)
    decreases |steps|
  {
    hide Grows, LedgerOk, After, ClockOk;
    if steps == [] {
      GrowsReflexive(d.ledger);
    } else {
      var front, step := steps[..|steps| - 1], steps[|steps| - 1];
      RunGrows(d, front);
      GrownIsOk(d.ledger, Run(d, front).ledger);
      StepGrows(Run(d, front), step);
      GrowsTransitive(d.ledger, Run(d, front).ledger, After(Run(d, front), step).ledger);
    }
  }

  // ---------------------------------------------------------------- the later snapshot dominates

  /** An advance that succeeds is one from an accepted disk, once the domain exists. */
  lemma AdvanceFromEnsured(d: Disk, f: Fresh) returns (domain: Record, receipts: seq<Link>)
    requires Advance(d, f).1.Success?
    ensures EnsureDomain(d.ledger, f).Success?
    ensures var middle := Disk(d.data, EnsureDomain(d.ledger, f).value.0);
            var (states, r) := Advance(middle, f);
            && Accepted(middle, domain, receipts) && r.Success? && |states| == 2
            && Advance(d, f).0 != [] && Advance(d, f).0[|Advance(d, f).0| - 1] == states[1]
  {
    EnsuredIsDomain(d.ledger, f);
    hide LoadReceipts, LoadBinding, LoadDomain, Numbers, MalformedReceiptName;
    domain := EnsureDomain(d.ledger, f).value.1;
    receipts := Check(d.data, EnsureDomain(d.ledger, f).value.0, domain).value;
  }

  /** A snapshot is bound to the newest receipt of its ledger, and holds no temporary files. */
  lemma SnapshotIsNewest(d: Disk, f: Fresh) returns (domain: Record, receipts: seq<Link>)
    requires CreateSnapshot(d, f).1.Some?
    ensures var s := CreateSnapshot(d, f).1.value;
            && Verified(s) && s.ledger == CreateSnapshot(d, f).0.ledger && s.data == CreateSnapshot(d, f).0.data
            && domain.Domain? && LoadDomain(s.ledger) == Some(domain)
            && LoadReceipts(s.ledger, domain) == Success(receipts) && s.manifest.lineage.sequence == |receipts|
  {
    var clean, s := Cleaned(d), CreateSnapshot(d, f).1.value;
    hide Advance, Accepted, ValidateLineage, LedgerAllows, EnsureDomain, Cleaned;
    FreshSnapshotVerifies(s.data, s.ledger);
    domain, receipts := AdvanceFromEnsured(clean, f);
    var middle := Disk(clean.data, EnsureDomain(clean.ledger, f).value.0);
    AdvanceExtends(middle, f, domain, receipts);
    receipts := receipts + [Advance(middle, f).1.value];
    AcceptedLoads(Advance(middle, f).0[1], domain, receipts);
    AcceptedDomain(Advance(middle, f).0[1], domain, receipts);
  }

  lemma AcceptedDomain(d: Disk, domain: Record, receipts: seq<Link>)
    requires Accepted(d, domain, receipts)
    ensures LoadDomain(d.ledger) == Some(domain)
  {
  }

  lemma EnsuredPaths(ledger: Dir, f: Fresh, p: Path)
    requires EnsureDomain(ledger, f).Success? && p in EnsureDomain(ledger, f).value.0
    ensures p in ledger || p == Top(DomainFile)
  {
  }

  lemma AdvancePaths(d: Disk, f: Fresh)
    requires Advance(d, f).1.Success?
    ensures var states := Advance(d, f).0;
            states != [] && forall p :: p in states[|states| - 1].ledger ==>
                p in d.ledger || (p.parents == [] && (p.name.DomainFile? || p.name.ReceiptFile?))
  {
    EnsuredIsDomain(d.ledger, f);
    var ledger := EnsureDomain(d.ledger, f).value.0;
    forall p | p in ledger ensures p in d.ledger || p == Top(DomainFile) { EnsuredPaths(d.ledger, f, p); }
    hide EnsureDomain, Check;
  }

  lemma SnapshotIsClean(d: Disk, f: Fresh)
    requires CreateSnapshot(d, f).1.Some?
    ensures forall p :: p in CreateSnapshot(d, f).1.value.ledger ==> !(p.parents == [] && p.name.PendingFile?)
  {
    var clean := Cleaned(d);
    assert forall p :: p in clean.ledger ==> !(p.parents == [] && p.name.PendingFile?);
    AdvancePaths(clean, f) by { hide Advance, Cleaned; }
    hide Advance, ManifestOf, LedgerAllows, Cleaned;
  }

  /** Of any two snapshots of the same storage, whatever happened between them, the later one
      dominates exactly when every deletion receipt in between stayed what it was; the older data can
      then be restored under the later ledger exactly as far as its databases fit. */
  lemma LaterSnapshotDominates(d: Disk, f: Fresh, steps: seq<Step>, g: Fresh)
    requires CreateSnapshot(d, f).1.Some? && forall step :: step in steps ==> ClockOk(step)
    requires CreateSnapshot(Run(CreateSnapshot(d, f).0, steps), g).1.Some?
    ensures var older := CreateSnapshot(d, f).1.value;
            var newer := CreateSnapshot(Run(CreateSnapshot(d, f).0, steps), g).1.value;
            && Grows(older.ledger, newer.ledger)
            && (Dominates(newer.manifest, older.manifest) <==> DeletionReceiptsKept(older.ledger, newer.ledger))
            && (Restore(older, newer).Some? <==>
                  DeletionReceiptsKept(older.ledger, newer.ledger) && DataFits(older.data, Marks(newer.ledger)))
  {
    hide *;
    var now, older := CreateSnapshot(d, f).0, CreateSnapshot(d, f).1.value;
    var later := Run(now, steps);
    var newer := CreateSnapshot(later, g).1.value;
    SnapshotIsClean(d, f);
    var _, _ := SnapshotIsNewest(d, f);
    var domain, receipts := SnapshotIsNewest(later, g);
    VerifiedIsOk(older);
    RunGrows(now, steps);
    GrownIsOk(now.ledger, later.ledger);
    TakeGrows(later, g, 0);
    GrowsTransitive(older.ledger, later.ledger, newer.ledger);
    GrownLedgerDominates(older, newer, domain, receipts);
  }

  lemma VerifiedIsOk(s: Snapshot)
    requires Verified(s)
    ensures LedgerOk(s.ledger)
  {
  }

  // ---------------------------------------------------------------- deletion receipts

  /** All deletion receipts are the same. */
  ghost predicate SameReceipts(before: Dir, after: Dir) {
    forall user, byCookie, token :: Same(before, after, Top(DeletionReceiptFile(user, byCookie, token)))
  }

  lemma SameReceiptsTransitive(a: Dir, b: Dir, c: Dir)
    requires SameReceipts(a, b) && SameReceipts(b, c)
    ensures SameReceipts(a, c)
  {
    forall user, byCookie, token ensures Same(a, c, Top(DeletionReceiptFile(user, byCookie, token))) {
      assert Same(a, b, Top(DeletionReceiptFile(user, byCookie, token)));
      assert Same(b, c, Top(DeletionReceiptFile(user, byCookie, token)));
    }
  }

  ghost predicate AllSame(ledger: Dir, writes: seq<Dir>) {
    forall i :: 0 <= i < |writes| ==> SameReceipts(ledger, writes[i])
  }

  lemma OtherWrite(ledger: Dir, n: Name, r: Record)
    requires !n.DeletionReceiptFile?
    ensures SameReceipts(ledger, WithJson(ledger, n, r))
  {
  }

  lemma DeletedLifecycleSame(ledger: Dir, user: string, generation: int, state: State, now: int)
    ensures AllSame(ledger, Server.RecordLifecycle(ledger, user, generation, state, now).writes)
    ensures AllSame(ledger, Server.RecordDeletedLifecycle(ledger, user, generation, now).writes)
  {
    hide WithJson, SameReceipts, Server.StoredLifecycle;
    var name := LifecycleFile(OfUser(user));
    forall s: State, g: int ensures SameReceipts(ledger, WithJson(ledger, name, Lifecycle(VERSION, g, Some(s), now))) {
      OtherWrite(ledger, name, Lifecycle(VERSION, g, Some(s), now));
    }
  }

  lemma RecordDeletionSame(data: Dir, ledger: Dir, user: string, generation: int, now: int)
    ensures AllSame(ledger, Server.RecordDeletion(data, ledger, user, generation, now).writes)
  {
    hide WithJson, SameReceipts, Server.CurrentDeletion, Server.RecordDeletedLifecycle;
    var writes := Server.RecordDeletion(data, ledger, user, generation, now).writes;
    if writes != [] {
      var g := if Server.CurrentDeletion(data, ledger, user).value > generation then
        Server.CurrentDeletion(data, ledger, user).value else generation;
      OtherWrite(ledger, TombstoneFile(OfUser(user)), Tombstone(VERSION, g, now));
      DeletedLifecycleSame(writes[0], user, g, Deleted, now);
      forall i | 0 <= i < |writes| ensures SameReceipts(ledger, writes[i]) {
        if i > 0 { SameReceiptsTransitive(ledger, writes[0], writes[i]); }
      }
    }
  }

  /** Every other step of the server leaves the receipts alone. */
  lemma ServerSame(d: Disk, step: Step)
    requires !step.Delete?
    ensures SameReceipts(d.ledger, ServerLedger(d, step))
  {
    hide SameReceipts, Server.RecordDeletion, Server.RecordDeletedLifecycle, Server.RecordLifecycle,
        Server.CurrentDeletion, Server.StoredLifecycle;
    assert SameReceipts(d.ledger, d.ledger) by { SameReceiptsReflexive(d.ledger); }
    match step {
      case RecordOnly(user, generation, now, n) => RecordDeletionSame(d.data, d.ledger, user, generation, now);
      case Open(user, now) =>
        var deleted := Server.CurrentDeletion(d.data, d.ledger, user);
        if deleted.Some? { DeletedLifecycleSame(d.ledger, user, deleted.value + 1, Active, now); }
      case Oblige(user, now) =>
        forall g: int ensures AllSame(d.ledger, Server.RecordDeletedLifecycle(d.ledger, user, g, now).writes) {
          DeletedLifecycleSame(d.ledger, user, g, Deleted, now);
        }
      case _ =>
    }
  }

  lemma SameReceiptsReflexive(ledger: Dir)
    ensures SameReceipts(ledger, ledger)
  {
  }

  /** A deletion that has written anything has written its receipt, and changed no other. */
  lemma DeleteReceipts(d: Disk, step: Step)
    requires step.Delete? && Server.StartsDeletion(d.data, d.ledger, step.user, step.generation, step.session)
    ensures var receipt := DeletionReceipt(VERSION, step.generation, step.session.csrfHash);
            var announced := WithJson(d.ledger, Server.ReceiptName(step.user, step.session), receipt);
            SameReceipts(if step.writes == 0 then d.ledger else announced, ServerLedger(d, step))
  {
    hide SameReceipts, Server.RecordDeletion, WithJson, Server.CommittedReceipt;
    var receipt := DeletionReceipt(VERSION, step.generation, step.session.csrfHash);
    var announced := WithJson(d.ledger, Server.ReceiptName(step.user, step.session), receipt);
    SameReceiptsReflexive(d.ledger);
    SameReceiptsReflexive(announced);
    RecordDeletionSame(d.data, announced, step.user, step.generation, step.now);
  }

  /** The guard under which a deletion replaces a receipt by another one: it may start although a
      receipt under the same credential is there, and that one says something else. */
  predicate RewritesReceipt(d: Disk, step: Step) {
    && step.Delete? && step.writes > 0
    && Server.StartsDeletion(d.data, d.ledger, step.user, step.generation, step.session)
    && var p := Top(Server.ReceiptName(step.user, step.session));
       var receipt := DeletionReceipt(VERSION, step.generation, step.session.csrfHash);
       p in d.ledger && d.ledger[p] != File(PRIVATE, Json(receipt, 0))
  }

  lemma ToolSame(d: Disk, step: Step)
    requires step.Take? || step.CrashedTake? || step.CrashedCleanup? || step.Enroll? || step.Change? || step.Leftover?
    ensures SameReceipts(d.ledger, After(d, step).ledger)
  {
    SameReceiptsReflexive(d.ledger);
    hide SameReceipts;
    match step {
      case Take(f) => TakeSame(d, f, 0);
      case CrashedTake(f, n) => TakeSame(d, f, n);
      case CrashedCleanup(kept) => SweptSameReceipts(d.ledger, kept);
      case Enroll(unwritten, now) => EnrolledSame(d, unwritten, now);
      case Leftover(n, node) => if n.PendingFile? || n.OtherName? { LeftoverSame(d.ledger, n, node); }
      case _ =>
    }
  }

  lemma SweptSameReceipts(ledger: Dir, kept: set<Path>)
    ensures SameReceipts(ledger, Swept(ledger, kept))
  {
  }

  lemma LeftoverSame(ledger: Dir, n: Name, node: Node)
    requires !n.DeletionReceiptFile?
    ensures SameReceipts(ledger, ledger[Top(n) := node])
  {
  }

  lemma CleanSame(d: Disk)
    ensures SameReceipts(d.ledger, Cleaned(d).ledger)
  {
  }

  lemma PlanSame(ledger: Dir, plan: Enrollment.Plan, now: int)
    ensures SameReceipts(ledger, Enrollment.WithPlan(ledger, plan, now))
  {
    var after := Enrollment.WithPlan(ledger, plan, now);
    forall user, byCookie, token ensures Same(ledger, after, Top(DeletionReceiptFile(user, byCookie, token))) {
      Enrollment.PathOfPlan(ledger, plan, now, Top(DeletionReceiptFile(user, byCookie, token)));
    }
  }

  lemma EnrolledSame(d: Disk, unwritten: set<string>, now: int)
    ensures SameReceipts(d.ledger, Enrolled(d, unwritten, now))
  {
    SameReceiptsReflexive(d.ledger);
    hide SameReceipts, LedgerOk, Marks, Enrollment.WithPlan, Enrollment.Plannable, Enrollment.PlanOf;
    if LedgerOk(d.ledger) && Enrollment.Plannable(d.data, d.ledger, Marks(d.ledger)) {
      PlanSame(d.ledger, Enrollment.PlanOf(d.data, d.ledger, Marks(d.ledger)) - unwritten, now);
    }
  }

  lemma EnsureSame(ledger: Dir, f: Fresh)
    requires EnsureDomain(ledger, f).Success?
    ensures SameReceipts(ledger, EnsureDomain(ledger, f).value.0)
  {
    SameReceiptsReflexive(ledger);
    OtherWrite(ledger, DomainFile, NewDomain(f));
    hide SameReceipts, WithJson, LoadDomain, Numbers, MalformedReceiptName;
  }

  lemma AdvanceSame(d: Disk, f: Fresh)
    ensures forall i :: 0 <= i < |Advance(d, f).0| ==> SameReceipts(d.ledger, Advance(d, f).0[i].ledger)
  {
    hide SameReceipts, WithJson, EnsureDomain, Check;
    if EnsureDomain(d.ledger, f).Success? {
      var (ledger, domain) := EnsureDomain(d.ledger, f).value;
      EnsureSame(d.ledger, f);
      EnsuredIsDomain(d.ledger, f);
      var checked := Check(d.data, ledger, domain);
      if checked.Success? {
        var p := NextReceipt(domain, checked.value, DataDigest(d.data));
        OtherWrite(ledger, ReceiptFile(p.sequence), ReceiptRecord(domain, p));
        SameReceiptsTransitive(d.ledger, ledger, WithJson(ledger, ReceiptFile(p.sequence), ReceiptRecord(domain, p)));
      }
    }
  }

  lemma TakeSame(d: Disk, f: Fresh, n: nat)
    ensures SameReceipts(d.ledger, CreateSnapshot(d, f).0.ledger) && SameReceipts(d.ledger, CutTake(d, f, n).ledger)
  {
    var clean := Cleaned(d);
    CleanSame(d);
    AdvanceSame(clean, f);
    hide SameReceipts, Cleaned, LedgerAllows, Advance, ManifestOf;
    var states := Advance(clean, f).0;
    forall i | 0 <= i < |states| ensures SameReceipts(d.ledger, states[i].ledger) {
      SameReceiptsTransitive(d.ledger, clean.ledger, states[i].ledger);
    }
  }

  lemma SameIsKept(before: Dir, after: Dir)
    requires SameReceipts(before, after)
    ensures DeletionReceiptsKept(before, after)
  {
    forall user, byCookie, token ensures Kept(before, after, Top(DeletionReceiptFile(user, byCookie, token))) {
      assert Same(before, after, Top(DeletionReceiptFile(user, byCookie, token)));
    }
  }

  function ReceiptPath(user: string, s: Server.Session): Path {
    Top(Server.ReceiptName(user, s))
  }

  predicate RewritesAt(d: Disk, step: Step, p: Path) {
    RewritesReceipt(d, step) && p == ReceiptPath(step.user, step.session)
  }

  /** A step keeps a deletion receipt exactly when it is not such a deletion under the receipt's own
      credential. */
  lemma StepKeepsReceiptIff(d: Disk, step: Step, p: Path)
    requires p.parents == [] && p.name.DeletionReceiptFile?
    ensures Kept(d.ledger, After(d, step).ledger, p) <==> !RewritesAt(d, step, p)
  {
    assert p == Top(DeletionReceiptFile(p.name.user, p.name.byCookie, p.name.token));
    if step.Delete? {
      if Server.StartsDeletion(d.data, d.ledger, step.user, step.generation, step.session) {
        DeleteReceipts(d, step);
        StartedReceipt(d, step, ServerLedger(d, step), p);
      }
    } else {
      hide SameReceipts, DeletionReceiptsKept, ServerLedger, CreateSnapshot, CutTake, Swept, Enrolled;
      if step.RecordOnly? || step.Open? || step.Oblige? { ServerSame(d, step); } else { ToolSame(d, step); }
      SameIsKept(d.ledger, After(d, step).ledger);
      KeptAt(d.ledger, After(d, step).ledger, p);
    }
  }

  lemma KeptAt(before: Dir, after: Dir, p: Path)
    requires DeletionReceiptsKept(before, after) && p.parents == [] && p.name.DeletionReceiptFile?
    ensures Kept(before, after, p)
  {
    assert p == Top(DeletionReceiptFile(p.name.user, p.name.byCookie, p.name.token));
  }

  lemma StartedReceipt(d: Disk, step: Step, after: Dir, p: Path)
    requires step.Delete? && Server.StartsDeletion(d.data, d.ledger, step.user, step.generation, step.session)
    requires p.parents == [] && p.name.DeletionReceiptFile?
    requires var receipt := DeletionReceipt(VERSION, step.generation, step.session.csrfHash);
             var announced := WithJson(d.ledger, Server.ReceiptName(step.user, step.session), receipt);
             SameReceipts(if step.writes == 0 then d.ledger else announced, after)
    ensures Kept(d.ledger, after, p) <==> !RewritesAt(d, step, p)
  {
    assert p == Top(DeletionReceiptFile(p.name.user, p.name.byCookie, p.name.token));
    var receipt := DeletionReceipt(VERSION, step.generation, step.session.csrfHash);
    var announced := WithJson(d.ledger, Server.ReceiptName(step.user, step.session), receipt);
    var path := ReceiptPath(step.user, step.session);
    assert path in d.ledger ==> d.ledger[path].File?;
    hide Server.StartsDeletion;
    assert Same(if step.writes == 0 then d.ledger else announced, after, p);
  }

  /** A step keeps every deletion receipt exactly when it is not such a deletion. */
  lemma StepKeepsReceiptsIff(d: Disk, step: Step)
    ensures DeletionReceiptsKept(d.ledger, After(d, step).ledger) <==> !RewritesReceipt(d, step)
  {
    hide After, Kept;
    forall user, byCookie, token
      ensures var p := Top(DeletionReceiptFile(user, byCookie, token));
              Kept(d.ledger, After(d, step).ledger, p) <==> !RewritesAt(d, step, p)
    {
      StepKeepsReceiptIff(d, step, Top(DeletionReceiptFile(user, byCookie, token)));
    }
    hide Server.StartsDeletion;
    if RewritesReceipt(d, step) {
      assert RewritesAt(d, step, Top(DeletionReceiptFile(step.user, step.session.byCookie, step.session.token)));
    }
  }

  lemma KeptTransitive(a: Dir, b: Dir, c: Dir)
    requires DeletionReceiptsKept(a, b) && DeletionReceiptsKept(b, c)
    ensures DeletionReceiptsKept(a, c)
  {
    forall user, byCookie, token ensures Kept(a, c, Top(DeletionReceiptFile(user, byCookie, token))) {
      assert Kept(a, b, Top(DeletionReceiptFile(user, byCookie, token)));
      assert Kept(b, c, Top(DeletionReceiptFile(user, byCookie, token)));
    }
  }

  /** No step of the history replaces a deletion receipt by another one. */
  predicate NoRewrites(d: Disk, steps: seq<Step>)
    decreases |steps|
  {
    steps == []
    || (NoRewrites(d, steps[..|steps| - 1])
        && !RewritesReceipt(Run(d, steps[..|steps| - 1]), steps[|steps| - 1]))
  }

  lemma {:induction false} RunKeepsReceipts(d: Disk, steps: seq<Step>)
    requires NoRewrites(d, steps)
    ensures DeletionReceiptsKept(d.ledger, Run(d, steps).ledger)
    decreases |steps|
  {
    hide DeletionReceiptsKept, RewritesReceipt, After;
    if steps == [] {
      SameReceiptsReflexive(d.ledger);
      SameIsKept(d.ledger, d.ledger);
    } else {
      var front, step := steps[..|steps| - 1], steps[|steps| - 1];
      RunKeepsReceipts(d, front);
      StepKeepsReceiptsIff(Run(d, front), step);
      KeptTransitive(d.ledger, Run(d, front).ledger, Run(d, steps).ledger);
    }
  }

  lemma ReceiptsThrough(now: Disk, steps: seq<Step>, g: Fresh)
    requires NoRewrites(now, steps)
    ensures DeletionReceiptsKept(now.ledger, CreateSnapshot(Run(now, steps), g).0.ledger)
  {
    hide *;
    var later := Run(now, steps);
    var newer := CreateSnapshot(later, g).0;
    RunKeepsReceipts(now, steps);
    TakeSame(later, g, 0);
    SameIsKept(later.ledger, newer.ledger);
    KeptTransitive(now.ledger, later.ledger, newer.ledger);
  }

  /** Without such a deletion in between, a later snapshot always dominates. */
  lemma LaterSnapshotRestores(d: Disk, f: Fresh, steps: seq<Step>, g: Fresh)
    requires CreateSnapshot(d, f).1.Some? && forall step :: step in steps ==> ClockOk(step)
    requires CreateSnapshot(Run(CreateSnapshot(d, f).0, steps), g).1.Some?
    requires NoRewrites(CreateSnapshot(d, f).0, steps)
    ensures var older := CreateSnapshot(d, f).1.value;
            var newer := CreateSnapshot(Run(CreateSnapshot(d, f).0, steps), g).1.value;
            && Grows(older.ledger, newer.ledger) && Dominates(newer.manifest, older.manifest)
            && (Restore(older, newer).Some? <==> DataFits(older.data, Marks(newer.ledger)))
  {
    hide *;
    var now := CreateSnapshot(d, f).0;
    LaterSnapshotDominates(d, f, steps, g);
    SnapshotLedger(d, f);
    SnapshotLedger(Run(now, steps), g);
    ReceiptsThrough(now, steps, g);
  }

  lemma SnapshotLedger(d: Disk, f: Fresh)
    requires CreateSnapshot(d, f).1.Some?
    ensures CreateSnapshot(d, f).1.value.ledger == CreateSnapshot(d, f).0.ledger
    ensures CreateSnapshot(d, f).1.value.data == CreateSnapshot(d, f).0.data
  {
    hide Advance, LedgerAllows, Cleaned, ManifestOf;
  }

  // ---------------------------------------------------------------- committed deletions

  /** The receipt is there, and the generation it announces is deleted. */
  ghost predicate Committed(ledger: Dir, user: string, s: Server.Session) {
    var r := PrivateJson(ledger, Server.ReceiptName(user, s));
    && r.Some? && Server.ReceiptOk(r.value, s.byCookie) && LedgerOk(ledger)
    && OfUser(user) in Marks(ledger) && r.value.receiptGeneration <= Marks(ledger)[OfUser(user)].deletedGeneration
  }

  lemma CommittedGrows(before: Dir, after: Dir, user: string, s: Server.Session)
    requires Committed(before, user, s) && Grows(before, after) && Kept(before, after, ReceiptPath(user, s))
    ensures Committed(after, user, s)
  {
    hide LedgerOk, Marks;
    assert MarkKept(Marks(after), OfUser(user), Marks(before)[OfUser(user)]);
  }

  /** The deletion's tombstone is there. */
  lemma BuriedIsCommitted(ledger: Dir, user: string, s: Server.Session, g: int, now: int)
    requires LedgerOk(ledger) && Server.StoredDeletion(ledger, OfUser(user)).Some? && ValidGeneration(now)
        && ValidGeneration(g) && Server.StoredDeletion(ledger, OfUser(user)).value <= g
    requires var r := PrivateJson(ledger, Server.ReceiptName(user, s));
             r.Some? && Server.ReceiptOk(r.value, s.byCookie) && r.value.receiptGeneration <= g
    ensures Committed(WithJson(ledger, TombstoneFile(OfUser(user)), Tombstone(VERSION, g, now)), user, s)
  {
    var a := OfUser(user);
    var buried := WithJson(ledger, TombstoneFile(a), Tombstone(VERSION, g, now));
    ServerReadsTheSame(ledger, a);
    WriteTombstone(ledger, a, g, now);
    GrownIsOk(ledger, buried);
    EntryFacts(buried, a);
    assert PrivateJson(buried, Server.ReceiptName(user, s)) == PrivateJson(ledger, Server.ReceiptName(user, s));
    hide LedgerOk, Marks, Grows, EntryOf, Accounts, Server.StoredDeletion, WithJson, PrivateJson;
  }

  /** The receipt does not change what counts as deleted. */
  lemma AnnouncedDeletion(data: Dir, ledger: Dir, user: string, s: Server.Session, r: Record)
    ensures var announced := WithJson(ledger, Server.ReceiptName(user, s), r);
            && Server.CurrentDeletion(data, announced, user) == Server.CurrentDeletion(data, ledger, user)
            && PrivateJson(announced, Server.ReceiptName(user, s)) == Some(r)
            && (Server.CurrentDeletion(data, ledger, user).Some? ==>
                  Server.StoredDeletion(announced, OfUser(user)) == Server.CurrentDeletion(data, ledger, user))
  {
  }

  /** A deletion is committed from its second write on. */
  lemma DeletionCommits(data: Dir, ledger: Dir, user: string, generation: int, s: Server.Session, now: int, i: nat)
    requires LedgerOk(ledger) && ValidGeneration(now)
    requires 1 <= i < |Server.DeleteUser(data, ledger, user, generation, s, now).writes|
    ensures Committed(Server.DeleteUser(data, ledger, user, generation, s, now).writes[i], user, s)
  {
    var receipt := DeletionReceipt(VERSION, generation, s.csrfHash);
    var announced := WithJson(ledger, Server.ReceiptName(user, s), receipt);
    AnnouncedDeletion(data, ledger, user, s, receipt);
    hide LedgerOk, Grows, Committed, WithJson, PrivateJson, HasMain, StoredGeneration, Server.CurrentDeletion,
        Server.CommittedReceipt, Server.RecordDeletedLifecycle, Server.StoredDeletion;
    var writes := Server.DeleteUser(data, ledger, user, generation, s, now).writes;
    WriteReceipt(ledger, user, s, receipt);
    GrownIsOk(ledger, announced);
    BuriedIsCommitted(announced, user, s, generation, now);
    var rest := Server.RecordDeletedLifecycle(writes[1], user, generation, now).writes;
    assert writes == [announced, writes[1]] + rest;
    if i > 1 {
      StoredTombstone(announced, OfUser(user), generation, now);
      RestIsCommitted(writes[1], user, s, generation, now, i - 2);
    }
  }

  lemma StoredTombstone(ledger: Dir, a: Account, g: int, now: int)
    requires ValidGeneration(g) && ValidGeneration(now)
    ensures Server.StoredDeletion(WithJson(ledger, TombstoneFile(a), Tombstone(VERSION, g, now)), a) == Some(g)
  {
  }

  lemma RestIsCommitted(ledger: Dir, user: string, s: Server.Session, g: int, now: int, i: nat)
    requires Committed(ledger, user, s) && ValidGeneration(now)
    requires Server.StoredDeletion(ledger, OfUser(user)) == Some(g) && 0 < g
    requires i < |Server.RecordDeletedLifecycle(ledger, user, g, now).writes|
    ensures Committed(Server.RecordDeletedLifecycle(ledger, user, g, now).writes[i], user, s)
  {
    assert LedgerOk(ledger);
    hide LedgerOk, Grows, Committed, Server.RecordDeletedLifecycle, SameReceipts, EntryOf;
    var after := Server.RecordDeletedLifecycle(ledger, user, g, now).writes[i];
    ServerReadsTheSame(ledger, OfUser(user));
    RecordDeletedGrows(ledger, user, g, now);
    DeletedLifecycleSame(ledger, user, g, Deleted, now);
    SameIsKept(ledger, after);
    KeptAt(ledger, after, ReceiptPath(user, s));
    CommittedGrows(ledger, after, user, s);
  }

  /** A committed deletion answers its request, and nothing is written again. */
  lemma CommittedAnswers(data: Dir, ledger: Dir, user: string, generation: int, s: Server.Session, now: int)
    requires Committed(ledger, user, s)
    ensures var receipt := PrivateJson(ledger, Server.ReceiptName(user, s)).value;
            Server.DeleteUser(data, ledger, user, generation, s, now)
                == Server.Outcome([], Server.CurrentDeletion(data, ledger, user).Some?
                                        && Server.AnsweredBy(receipt, generation, s))
  {
    CommittedIsFound(data, ledger, user, s);
    hide Server.CurrentDeletion, Server.CommittedReceipt, LedgerOk, Marks;
  }

  lemma CommittedIsFound(data: Dir, ledger: Dir, user: string, s: Server.Session)
    requires Committed(ledger, user, s)
    ensures var r := PrivateJson(ledger, Server.ReceiptName(user, s)).value;
            Server.CommittedReceipt(data, ledger, user, s)
                == if Server.CurrentDeletion(data, ledger, user).None? then None else Some(r)
  {
    ServerReadsTheSame(ledger, OfUser(user));
    EntryFacts(ledger, OfUser(user));
    var deleted := Server.CurrentDeletion(data, ledger, user);
    assert deleted.Some? ==> deleted == Server.StoredDeletion(ledger, OfUser(user));
    hide LedgerOk, Marks, Server.CurrentDeletion, Server.StoredDeletion, EntryOf;
  }

  lemma CommittedIsNotRewritten(d: Disk, step: Step, user: string, s: Server.Session)
    requires Committed(d.ledger, user, s)
    ensures !RewritesAt(d, step, ReceiptPath(user, s))
  {
    CommittedIsFound(d.data, d.ledger, user, s);
    hide Committed, LedgerOk, Server.CurrentDeletion;
  }

  /** Committed deletions stay committed, under the very same receipt, whatever happens. */
  lemma {:induction false} CommittedForever(d: Disk, steps: seq<Step>, user: string, s: Server.Session)
    requires Committed(d.ledger, user, s) && forall step :: step in steps ==> ClockOk(step)
    ensures Committed(Run(d, steps).ledger, user, s) && Kept(d.ledger, Run(d, steps).ledger, ReceiptPath(user, s))
    decreases |steps|
  {
    assert LedgerOk(d.ledger);
    hide After, Committed, ClockOk, RewritesAt, LedgerOk, Grows;
    if steps != [] {
      var front, step := steps[..|steps| - 1], steps[|steps| - 1];
      CommittedForever(d, front, user, s);
      var now := Run(d, front);
      RunGrows(d, front);
      GrownIsOk(d.ledger, now.ledger);
      StepGrows(now, step);
      CommittedIsNotRewritten(now, step, user, s);
      StepKeepsReceiptIff(now, step, ReceiptPath(user, s));
      CommittedGrows(now.ledger, Run(d, steps).ledger, user, s);
    }
  }
}
