/** Enrollment of account data that predates lifecycle records (scripts/restore_drill.py). */
module RecoveryEnrollment {
  import opened Wire
  import opened RecoveryFiles
  import opened RecoveryLedger

  datatype Planned = Planned(generation: int, state: State)
  type Plan = map<string, Planned>

  // ---------------------------------------------------------------- the plan

  predicate Enrolled(ledger: Dir, user: string) {
    Top(LifecycleFile(OfUser(user))) in ledger
  }

  function DeletedGeneration(wm: Watermark, a: Account): int {
    if a in wm then wm[a].deletedGeneration else 0
  }

  /** The record planned for one account, or None when its files cannot be enrolled. */
  function PlanFor(data: Dir, wm: Watermark, user: string): Option<Planned> {
    var deleted := DeletedGeneration(wm, OfUser(user));
    if !HasMain(data, user) then (if deleted < 1 then None else Some(Planned(deleted, Deleted)))
    else
      var g := StoredGeneration(data, user);
      if g.None? then None
      else if g.value <= deleted then Some(Planned(deleted, Deleted)) else Some(Planned(g.value, Active))
  }

  function Unenrolled(data: Dir, ledger: Dir): set<string>
    requires Users(data).Some?
  {
    set u | u in Users(data).value && !Enrolled(ledger, u)
  }

  predicate Plannable(data: Dir, ledger: Dir, wm: Watermark) {
    Users(data).Some? && forall u :: u in Unenrolled(data, ledger) ==> PlanFor(data, wm, u).Some?
  }

  function PlanOf(data: Dir, ledger: Dir, wm: Watermark): Plan
    requires Plannable(data, ledger, wm)
  {
    map u | u in Unenrolled(data, ledger) :: PlanFor(data, wm, u).value
  }

  lemma NotPlannable(data: Dir, ledger: Dir, wm: Watermark, u: string)
    requires Users(data).Some? && u in Users(data).value && !Enrolled(ledger, u) && PlanFor(data, wm, u).None?
    ensures !Plannable(data, ledger, wm)
  {
    assert u in Unenrolled(data, ledger);
  }

  lemma WholePlan(data: Dir, ledger: Dir, wm: Watermark, plan: Plan)
    requires Users(data).Some? && forall u :: u in plan <==> u in Users(data).value && !Enrolled(ledger, u)
    requires forall u :: u in plan ==> PlanFor(data, wm, u) == Some(plan[u])
    ensures Plannable(data, ledger, wm) && plan == PlanOf(data, ledger, wm)
  {
    hide PlanFor, Users, Enrolled;
    assert plan.Keys == Unenrolled(data, ledger);
  }

  /** planned_lifecycle_records, account by account. */
  method PlannedLifecycleRecords(data: Dir, ledger: Dir, wm: Watermark) returns (r: Option<Plan>)
    ensures r == if Plannable(data, ledger, wm) then Some(PlanOf(data, ledger, wm)) else None
  {
    var users := Users(data);
    if users.None? { return None; }
    hide Plannable, PlanOf, Users, Enrolled, HasMain, DeletedGeneration;
    var plan: Plan := map[];
    var left := users.value;
    while left != {}
      invariant left <= users.value
      invariant forall u :: u in plan <==> u in users.value - left && !Enrolled(ledger, u)
      invariant forall u :: u in plan ==> PlanFor(data, wm, u) == Some(plan[u])
      decreases |left|
    {
      var u :| u in left;
      left := left - {u};
      if Enrolled(ledger, u) { continue; }
      var deleted := DeletedGeneration(wm, OfUser(u));
      if !HasMain(data, u) {
        if deleted < 1 {
          NotPlannable(data, ledger, wm, u);
          return None;
        }
        plan := plan[u := Planned(deleted, Deleted)];
        continue;
      }
      var g := StoredGeneration(data, u);
      if g.None? {
        NotPlannable(data, ledger, wm, u);
        return None;
      }
      var state := if g.value <= deleted then Deleted else Active;
      plan := plan[u := Planned(if state == Deleted then deleted else g.value, state)];
    }
    WholePlan(data, ledger, wm, plan);
    return Some(plan);
  }

  function RecordPath(user: string): Path {
    Top(LifecycleFile(OfUser(user)))
  }

  function RecordFile(p: Planned, now: int): Node {
    File(PRIVATE, Json(Lifecycle(VERSION, p.generation, Some(p.state), now), 0))
  }

  /** The ledger once every planned record is written. */
  function WithPlan(ledger: Dir, plan: Plan, now: int): Dir {
    ledger + map u | u in plan :: RecordPath(u) := RecordFile(plan[u], now)
  }

  /** The user whose record a path is. */
  predicate IsRecordOf(p: Path, plan: Plan) {
    p.parents == [] && p.name.LifecycleFile? && p.name.account.OfUser? && p.name.account.user in plan
  }

  lemma PathOfPlan(ledger: Dir, plan: Plan, now: int, p: Path)
    ensures p in WithPlan(ledger, plan, now) <==> p in ledger || IsRecordOf(p, plan)
    ensures IsRecordOf(p, plan) ==> p == RecordPath(p.name.account.user)
    ensures p in WithPlan(ledger, plan, now) ==>
      WithPlan(ledger, plan, now)[p] == if IsRecordOf(p, plan) then RecordFile(plan[p.name.account.user], now)
          else ledger[p]
  {
    if IsRecordOf(p, plan) { assert p == RecordPath(p.name.account.user); }
  }

  ghost function Without(plan: Plan, left: set<string>): Plan {
    plan - left
  }

  lemma WriteOne(ledger: Dir, plan: Plan, left: set<string>, u: string, now: int)
    requires u in left && u in plan
    ensures WithPlan(ledger, Without(plan, left - {u}), now)
        == WithPlan(ledger, Without(plan, left), now)[RecordPath(u) := RecordFile(plan[u], now)]
    ensures RecordPath(u) in WithPlan(ledger, Without(plan, left), now) <==> Enrolled(ledger, u)
  {
    var before, after := Without(plan, left), Without(plan, left - {u});
    assert forall v :: v in after <==> v in before || v == u;
    var a, b := WithPlan(ledger, after, now), WithPlan(ledger, before, now)[RecordPath(u) := RecordFile(plan[u], now)];
    forall p ensures (p in a <==> p in b) && (p in a ==> a[p] == b[p]) {
      PathOfPlan(ledger, after, now, p);
      PathOfPlan(ledger, before, now, p);
      hide WithPlan;
    }
    PathOfPlan(ledger, before, now, RecordPath(u));
    hide WithPlan, Without;
    assert a == b;
  }

  lemma WriteEnds(ledger: Dir, plan: Plan, now: int)
    ensures WithPlan(ledger, Without(plan, plan.Keys), now) == ledger && Without(plan, {}) == plan
  {
    assert Without(plan, plan.Keys) == map[];
  }

  /** The writes of enroll_lifecycle. Each is exclusive: linking over an existing file would fail. */
  method WriteEnrolled(ledger: Dir, plan: Plan, now: int) returns (after: Dir)
    requires forall u :: u in plan ==> !Enrolled(ledger, u)
    ensures after == WithPlan(ledger, plan, now)
  {
    after := ledger;
    var left := plan.Keys;
    WriteEnds(ledger, plan, now);
    hide WithPlan, Without;
    while left != {}
      invariant left <= plan.Keys && after == WithPlan(ledger, Without(plan, left), now)
      decreases |left|
    {
      var u :| u in left;
      WriteOne(ledger, plan, left, u, now);
      assert RecordPath(u) !in after;
      after := after[RecordPath(u) := RecordFile(plan[u], now)];
      left := left - {u};
    }
  }

  // ---------------------------------------------------------------- laws

  /** How far an account is: generation first, and deleted above active. */
  predicate RankAtMost(a: Mark, b: Mark) {
    a.generation < b.generation || (a.generation == b.generation && (a.state == Deleted ==> b.state == Deleted))
  }

  /** The ledger is acceptable, the accounts can be planned, and this is the plan. */
  predicate Plans(data: Dir, ledger: Dir, plan: Plan) {
    LedgerOk(ledger) && Plannable(data, ledger, Marks(ledger)) && plan == PlanOf(data, ledger, Marks(ledger))
  }

  /** The plan, or what a crash let through of it. */
  ghost predicate PartOfPlan(data: Dir, ledger: Dir, plan: Plan) {
    && LedgerOk(ledger)
    && forall u :: u in plan ==> !Enrolled(ledger, u) && PlanFor(data, Marks(ledger), u) == Some(plan[u])
  }

  lemma PartsOfPlan(data: Dir, ledger: Dir, plan: Plan, left: set<string>)
    requires Plans(data, ledger, plan)
    ensures PartOfPlan(data, ledger, plan) && PartOfPlan(data, ledger, plan - left)
  {
    hide PlanFor, LedgerOk, Marks, Enrolled;
  }

  /** The records of a planned account after the enrollment: the new lifecycle, the old tombstone. */
  lemma PlannedFiles(ledger: Dir, plan: Plan, now: int, u: string)
    requires u in plan && ValidGeneration(now) && ValidGeneration(plan[u].generation)
    ensures var after, a := WithPlan(ledger, plan, now), OfUser(u);
            && Top(LifecycleFile(a)) in after
            && ParseLifecycle(after, a) == Some(Lifecycle(VERSION, plan[u].generation, Some(plan[u].state), now))
            && ParseTombstone(after, a) == ParseTombstone(ledger, a)
            && (Top(TombstoneFile(a)) in after <==> Top(TombstoneFile(a)) in ledger)
            && a in Accounts(after)
  {
    var after, a := WithPlan(ledger, plan, now), OfUser(u);
    PathOfPlan(ledger, plan, now, RecordPath(u));
    PathOfPlan(ledger, plan, now, Top(TombstoneFile(a)));
    AccountsAreFiles(after, a);
  }

  /** Before it, the account had at most a tombstone, and that parses. */
  lemma UnenrolledFiles(data: Dir, ledger: Dir, plan: Plan, u: string)
    requires PartOfPlan(data, ledger, plan) && u in plan
    ensures var a := OfUser(u);
            var t := ParseTombstone(ledger, a);
            && (Top(TombstoneFile(a)) in ledger ==> t.Some?) && ParseLifecycle(ledger, a).None?
            && DeletedGeneration(Marks(ledger), a) == if t.Some? then t.value.deletedGeneration else 0
  {
    var a := OfUser(u);
    assert !Enrolled(ledger, u);
    AccountsAreFiles(ledger, a);
    if a in Accounts(ledger) {
      AccountIsOk(ledger, a);
    }
  }

  /** The planned generation is at least the deleted one, and the same exactly for a deleted state. */
  lemma PlannedGeneration(data: Dir, ledger: Dir, plan: Plan, u: string)
    requires PartOfPlan(data, ledger, plan) && u in plan
    ensures var deleted := DeletedGeneration(Marks(ledger), OfUser(u));
            && ValidGeneration(plan[u].generation) && 0 <= deleted <= plan[u].generation
            && (plan[u].state == Deleted <==> deleted == plan[u].generation)
  {
    UnenrolledFiles(data, ledger, plan, u);
    assert PlanFor(data, Marks(ledger), u) == Some(plan[u]);
  }

  /** A planned lifecycle beside the account's tombstone, if it has one. */
  lemma PlannedMark(e: Entry, p: Planned, deleted: int, now: int)
    requires ValidGeneration(now) && ValidGeneration(p.generation)
    requires 0 <= deleted <= p.generation && (p.state == Deleted <==> deleted == p.generation)
    requires e.lifecycle == Some(Lifecycle(VERSION, p.generation, Some(p.state), now))
    requires e.tombstone.Some? ==> TombstoneOk(e.tombstone.value)
    requires deleted == if e.tombstone.Some? then e.tombstone.value.deletedGeneration else 0
    ensures EntryOk(e) && Normalize(e) == Some(Mark(p.generation, p.state, p.generation, deleted))
  {
  }

  lemma PlannedEntry(data: Dir, ledger: Dir, plan: Plan, now: int, u: string)
    requires PartOfPlan(data, ledger, plan) && ValidGeneration(now) && u in plan
    ensures var after, a := WithPlan(ledger, plan, now), OfUser(u);
            var deleted := DeletedGeneration(Marks(ledger), a);
            && AccountOk(after, a) && a in Accounts(after)
            && Normalize(EntryOf(after, a))
                   == Some(Mark(plan[u].generation, plan[u].state, plan[u].generation, deleted))
            && deleted <= plan[u].generation
            && (plan[u].state == Deleted <==> deleted == plan[u].generation)
  {
    assert LedgerOk(ledger);
    hide *;
    PlannedGeneration(data, ledger, plan, u);
    UnenrolledFiles(data, ledger, plan, u);
    PlannedFiles(ledger, plan, now, u);
    var after, a := WithPlan(ledger, plan, now), OfUser(u);
    EntryIsOk(after, a, plan[u], DeletedGeneration(Marks(ledger), a), now);
  }

  lemma EntryIsOk(after: Dir, a: Account, p: Planned, deleted: int, now: int)
    requires ValidGeneration(now) && ValidGeneration(p.generation)
    requires 0 <= deleted <= p.generation && (p.state == Deleted <==> deleted == p.generation)
    requires ParseLifecycle(after, a) == Some(Lifecycle(VERSION, p.generation, Some(p.state), now))
    requires Top(TombstoneFile(a)) in after ==> ParseTombstone(after, a).Some?
    requires deleted
        == if ParseTombstone(after, a).Some? then ParseTombstone(after, a).value.deletedGeneration else 0
    ensures AccountOk(after, a)
    ensures Normalize(EntryOf(after, a)) == Some(Mark(p.generation, p.state, p.generation, deleted))
  {
    hide ParseLifecycle, ParseTombstone, Normalize;
    PlannedMark(EntryOf(after, a), p, deleted, now);
  }

  lemma OtherEntry(ledger: Dir, plan: Plan, now: int, a: Account)
    requires !(a.OfUser? && a.user in plan)
    ensures var after := WithPlan(ledger, plan, now);
            && EntryOf(after, a) == EntryOf(ledger, a)
            && (AccountOk(after, a) <==> AccountOk(ledger, a)) && (a in Accounts(after) <==> a in Accounts(ledger))
  {
    var after := WithPlan(ledger, plan, now);
    PathOfPlan(ledger, plan, now, Top(LifecycleFile(a)));
    PathOfPlan(ledger, plan, now, Top(TombstoneFile(a)));
    hide WithPlan;
    AccountsAreFiles(after, a);
    AccountsAreFiles(ledger, a);
  }

  /** Enrollment keeps the ledger acceptable, lowers no account's rank and no deletion, changes no
      other account, and adds exactly the planned accounts. */
  lemma EnrollmentNeverLowers(data: Dir, ledger: Dir, plan: Plan, now: int)
    requires PartOfPlan(data, ledger, plan) && ValidGeneration(now)
    ensures LedgerOk(WithPlan(ledger, plan, now))
    ensures var before, after := Marks(ledger), Marks(WithPlan(ledger, plan, now));
            && (forall a :: a in after <==> a in before || (a.OfUser? && a.user in plan))
            && (forall a :: a in before ==>
                      && a in after && before[a].deletedGeneration == after[a].deletedGeneration
                      && RankAtMost(before[a], after[a]))
            && (forall a :: a in before && !(a.OfUser? && a.user in plan) ==> after[a] == before[a])
  {
    hide LedgerOk, Plannable, PlanOf;
    var after := WithPlan(ledger, plan, now);
    forall a ensures a in Accounts(after) <==> a in Accounts(ledger) || (a.OfUser? && a.user in plan) {
      if a.OfUser? && a.user in plan { PlannedEntry(data, ledger, plan, now, a.user); }
          else { OtherEntry(ledger, plan, now, a); }
    }
    forall a | a in Accounts(after) ensures AccountOk(after, a) {
      if a.OfUser? && a.user in plan {
        PlannedEntry(data, ledger, plan, now, a.user);
      } else {
        OtherEntry(ledger, plan, now, a);
        assert AccountOk(ledger, a) by { AccountIsOk(ledger, a); }
      }
    }
    LedgerStaysOk(ledger, plan, now);
    forall a | a in Accounts(ledger)
      ensures var m, n := Marks(ledger)[a], Marks(after)[a];
              m.deletedGeneration == n.deletedGeneration && RankAtMost(m, n)
                  && (!(a.OfUser? && a.user in plan) ==> m == n)
    {
      AccountIsOk(ledger, a);
      if a.OfUser? && a.user in plan {
        PlannedEntry(data, ledger, plan, now, a.user);
        NormalizeLaws(EntryOf(ledger, a));
        AccountsAreFiles(ledger, a);
        OnlyTombstone(data, ledger, plan, a.user);
      } else {
        OtherEntry(ledger, plan, now, a);
      }
    }
  }

  lemma AccountIsOk(ledger: Dir, a: Account)
    requires LedgerOk(ledger) && a in Accounts(ledger)
    ensures AccountOk(ledger, a) && a in Marks(ledger) && Normalize(EntryOf(ledger, a)) == Some(Marks(ledger)[a])
  {
  }

  /** A planned account had no lifecycle, so its mark was its deletion. */
  lemma OnlyTombstone(data: Dir, ledger: Dir, plan: Plan, u: string)
    requires PartOfPlan(data, ledger, plan) && u in plan && OfUser(u) in Accounts(ledger)
    ensures var m := Marks(ledger)[OfUser(u)]; m.state == Deleted && m.generation == m.deletedGeneration
  {
    AccountIsOk(ledger, OfUser(u));
    assert !Enrolled(ledger, u);
    NormalizeLaws(EntryOf(ledger, OfUser(u)));
  }

  lemma LedgerStaysOk(ledger: Dir, plan: Plan, now: int)
    requires LedgerOk(ledger)
        && forall a :: a in Accounts(WithPlan(ledger, plan, now)) ==> AccountOk(WithPlan(ledger, plan, now), a)
    ensures LedgerOk(WithPlan(ledger, plan, now))
  {
    hide AccountOk, Accounts;
    var after := WithPlan(ledger, plan, now);
    forall p | p in after ensures !(p.parents == [] && p.name.MalformedAccountFile?) {
      assert p in ledger || p.name.LifecycleFile?;
    }
  }

  /** Every account that is enrolled validates afterwards. */
  lemma EnrolledAccountsFit(data: Dir, ledger: Dir, plan: Plan, now: int, u: string)
    requires PartOfPlan(data, ledger, plan) && ValidGeneration(now) && u in plan
    ensures LedgerOk(WithPlan(ledger, plan, now)) && OfUser(u) in Marks(WithPlan(ledger, plan, now))
    ensures Fits(data, u, Marks(WithPlan(ledger, plan, now))[OfUser(u)])
  {
    assert PlanFor(data, Marks(ledger), u) == Some(plan[u]);
    hide *;
    EnrollmentNeverLowers(data, ledger, plan, now);
    PlannedEntry(data, ledger, plan, now, u);
    AccountIsOk(WithPlan(ledger, plan, now), OfUser(u));
    PlannedFits(data, Marks(ledger), u, plan[u]);
  }

  lemma PlannedFits(data: Dir, wm: Watermark, u: string, p: Planned)
    requires PlanFor(data, wm, u) == Some(p)
    ensures Fits(data, u, Mark(p.generation, p.state, p.generation, DeletedGeneration(wm, OfUser(u))))
  {
  }

  /** The validation after enrollment passes exactly when the accounts that already had a lifecycle
      record pass it before. */
  lemma EnrollmentValidatesIff(data: Dir, ledger: Dir, plan: Plan, now: int)
    requires Plans(data, ledger, plan) && ValidGeneration(now)
    ensures LedgerOk(WithPlan(ledger, plan, now))
    ensures DataFits(data, Marks(WithPlan(ledger, plan, now)))
      <==> forall u :: u in Users(data).value && Enrolled(ledger, u) ==>
            OfUser(u) in Marks(ledger) && Fits(data, u, Marks(ledger)[OfUser(u)])
  {
    PartsOfPlan(data, ledger, plan, {});
    PlanIsForUnenrolled(data, ledger, plan);
    hide *;
    EnrollmentNeverLowers(data, ledger, plan, now);
    var before, after := Marks(ledger), Marks(WithPlan(ledger, plan, now));
    forall u | u in Users(data).value && !Enrolled(ledger, u)
      ensures OfUser(u) in after && Fits(data, u, after[OfUser(u)])
    {
      EnrolledAccountsFit(data, ledger, plan, now, u);
    }
    FitsIff(data, ledger, before, after);
  }

  lemma FitsIff(data: Dir, ledger: Dir, before: Watermark, after: Watermark)
    requires Users(data).Some?
    requires forall u :: u in Users(data).value && !Enrolled(ledger, u) ==>
                OfUser(u) in after && Fits(data, u, after[OfUser(u)])
    requires forall u :: u in Users(data).value && Enrolled(ledger, u) ==> (OfUser(u) in after <==> OfUser(u) in before)
    requires forall u :: u in Users(data).value && Enrolled(ledger, u) && OfUser(u) in before ==>
                after[OfUser(u)] == before[OfUser(u)]
    ensures DataFits(data, after)
        <==> forall u :: u in Users(data).value && Enrolled(ledger, u) ==>
                OfUser(u) in before && Fits(data, u, before[OfUser(u)])
  {
    hide Users, Enrolled, Fits;
  }

  lemma PlanIsForUnenrolled(data: Dir, ledger: Dir, plan: Plan)
    requires Plans(data, ledger, plan)
    ensures Users(data).Some? && forall u :: u in plan <==> u in Users(data).value && !Enrolled(ledger, u)
  {
  }

  /** A second enrollment plans nothing. */
  lemma SecondPlanIsEmpty(data: Dir, ledger: Dir, plan: Plan, now: int, wm: Watermark)
    requires Plans(data, ledger, plan)
    ensures Plannable(data, WithPlan(ledger, plan, now), wm) && PlanOf(data, WithPlan(ledger, plan, now), wm) == map[]
  {
    var after := WithPlan(ledger, plan, now);
    forall u | u in Users(data).value ensures Enrolled(after, u) {
      if !Enrolled(ledger, u) { assert u in plan && RecordPath(u) in after; }
    }
    assert Unenrolled(data, after) == {};
  }

  /** require_enrollment_delta always passes: old entries stay, and exactly the planned names are new. */
  lemma EnrollmentDelta(data: Dir, ledger: Dir, plan: Plan, now: int)
    requires Plans(data, ledger, plan)
    ensures var before, after := InventoryOf(ledger), InventoryOf(WithPlan(ledger, plan, now));
            && (forall p :: p in before ==> p in after && after[p] == before[p])
            && (forall p :: p in after && p !in before <==> IsRecordOf(p, plan))
  {
    var after := WithPlan(ledger, plan, now);
    forall p ensures p in after <==> p in ledger || IsRecordOf(p, plan) { PathOfPlan(ledger, plan, now, p); }
    forall u | u in plan ensures RecordPath(u) !in ledger { assert !Enrolled(ledger, u); }
    forall p | p in ledger ensures after[p] == ledger[p] {
    }
    forall p | p in after && p in ledger ensures InventoryOf(after)[p] == InventoryOf(ledger)[p] {
    }
  }
}
