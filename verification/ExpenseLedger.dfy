/**
 * Expenses as they are stored, and the balance snapshots cached per group: create, patch, delete, and
 * `ensureBalanceSnapshot`. Amounts and shares are Decimal(19,4) columns, counted in units of 10^-4.
 */
module ExpenseLedger {
  import opened Sequences
  import opened Decimals
  import opened OrderedMaps
  import opened BalanceEngine
  import DebtSimplification
  import RoundingEngine
  import Split = ExpenseSplit

  type UserId = nat
  type GroupId = nat
  type ExpenseId = nat

  datatype Expense = Expense(group: GroupId, paidBy: UserId, amount: int, shares: OMap, deleted: bool)

  datatype Ledger = Ledger(expenses: map<ExpenseId, Expense>, cache: map<GroupId, GroupBalances>)

  datatype LedgerError =
    | NotGroupMember
    | SplitFailed(error: Split.SplitError)
    | ParticipantNotActive
    | DuplicateId
    | ExpenseNotFound
    | StaleVersion
    | SplitRequired

  const SPLIT_SCALE := 2

  // ---------- What create and patch store

  /** Shares at two decimals, written to a four-decimal column. */
  function StoredShares(shares: seq<Split.Share>): (r: OMap)
    ensures |r| == |shares|
  {
    seq(|shares|, i requires 0 <= i < |shares| => (shares[i].user, shares[i].owed * FINE_PER_MINOR))
  }

  /** `D(amount).toFixed(4)` */
  function StoredAmount(amount: Decimal): int {
    ToUnits(amount, FINE_SCALE)
  }

  predicate AllActive(shares: seq<Split.Share>, payer: UserId, active: set<UserId>) {
    payer in active && forall i :: 0 <= i < |shares| ==> shares[i].user in active
  }

  /** The stored form of an expense, when its split computes and all its users are active in the group. */
  function Priced(group: GroupId, payer: UserId, amount: Decimal, split: Split.SplitInput, active: set<UserId>)
    : Result<Expense, LedgerError>
  {
    match Split.Compute(split, amount, SPLIT_SCALE)
    case Err(e) => Err(SplitFailed(e))
    case Ok(r) =>
      if !AllActive(r.shares, payer, active) then Err(ParticipantNotActive)
      else Ok(Expense(group, payer, StoredAmount(amount), StoredShares(r.shares), false))
  }

  datatype Patch = Patch(amount: Option<Decimal>, split: Option<Split.SplitInput>, paidBy: Option<UserId>,
                         currencyGiven: bool)

  predicate NeedsSplit(p: Patch) {
    p.amount.Some? || p.split.Some? || p.paidBy.Some? || p.currencyGiven
  }

  predicate Found(s: Ledger, group: GroupId, id: ExpenseId) {
    id in s.expenses && s.expenses[id].group == group && !s.expenses[id].deleted
  }

  function Patched(e: Expense, p: Patch, active: set<UserId>): Result<Expense, LedgerError> {
    if !NeedsSplit(p) then Ok(e)
    else if p.split.None? then Err(SplitRequired)
    else
      var amount := if p.amount.Some? then p.amount.value else FromUnits(e.amount, FINE_SCALE);
      Priced(e.group, if p.paidBy.Some? then p.paidBy.value else e.paidBy, amount, p.split.value, active)
  }

  // ---------- Steps

  /** `active` is the set of active members of the group. */
  function Create(s: Ledger, id: ExpenseId, group: GroupId, actor: UserId, payer: UserId, amount: Decimal,
                  split: Split.SplitInput, active: set<UserId>): (Ledger, Result<ExpenseId, LedgerError>)
  {
    if actor !in active then (s, Err(NotGroupMember))
    else
      match Priced(group, payer, amount, split, active)
      case Err(e) => (s, Err(e))
      case Ok(expense) =>
        if id in s.expenses then (s, Err(DuplicateId))
        else (Ledger(s.expenses[id := expense], s.cache - {group}), Ok(id))
  }

  function PatchExpense(s: Ledger, id: ExpenseId, group: GroupId, actor: UserId, stale: bool, p: Patch,
                        active: set<UserId>): (Ledger, Result<ExpenseId, LedgerError>)
  {
    if actor !in active then (s, Err(NotGroupMember))
    else if !Found(s, group, id) then (s, Err(ExpenseNotFound))
    else if stale then (s, Err(StaleVersion))
    else
      match Patched(s.expenses[id], p, active)
      case Err(e) => (s, Err(e))
      case Ok(expense) => (Ledger(s.expenses[id := expense], s.cache - {group}), Ok(id))
  }

  function Delete(s: Ledger, id: ExpenseId, group: GroupId, actor: UserId, active: set<UserId>)
    : (Ledger, Result<ExpenseId, LedgerError>)
  {
    if actor !in active then (s, Err(NotGroupMember))
    else if !Found(s, group, id) then (s, Err(ExpenseNotFound))
    else (Ledger(s.expenses[id := s.expenses[id].(deleted := true)], s.cache - {group}), Ok(id))
  }

  // ---------- Reading the live expenses of a group

  function EntryOf(e: Expense): Entry {
    Entry(e.paidBy, e.amount, e.shares)
  }

  /** The live expenses of the group, each once, in some order: what an unordered query may return. */
  ghost predicate Enumerates(expenses: map<ExpenseId, Expense>, group: GroupId, order: seq<ExpenseId>) {
    && Distinct(order)
    && forall id :: id in order <==> id in expenses && expenses[id].group == group && !expenses[id].deleted
  }

  function Entries(expenses: map<ExpenseId, Expense>, order: seq<ExpenseId>): (r: seq<Entry>)
    requires forall id :: id in order ==> id in expenses
    ensures |r| == |order|
  {
    if order == [] then []
    else Entries(expenses, order[..|order| - 1]) + [EntryOf(expenses[order[|order| - 1]])]
  }

  /** Serves the cached snapshot, or recomputes and stores it. */
  function EnsureSnapshot(s: Ledger, group: GroupId, order: seq<ExpenseId>): (Ledger, GroupBalances)
    requires forall id :: id in order ==> id in s.expenses
  {
    if group in s.cache then (s, s.cache[group])
    else
      var snap := GroupBalancesOf(Entries(s.expenses, order));
      (s.(cache := s.cache[group := snap]), snap)
  }

  // ---------- Invariants

  /** Shares are cents, one per user, and sum to the amount within one unit of 10^-4. */
  ghost predicate Sound(e: Expense) {
    && OneEntryPerKey(e.shares)
    && CentOwed(e.shares)
    && Abs(e.amount - SumValues(e.shares)) <= 1
  }

  /** `snap` reports, for every user, the rounded net of the group's live expenses, and the settlement of those nets. */
  ghost predicate Current(expenses: map<ExpenseId, Expense>, group: GroupId, snap: GroupBalances) {
    && (forall order, u :: Enumerates(expenses, group, order) ==>
          Get(snap.netByUserId, u) == RoundFine(LedgerNet(Entries(expenses, order), u)))
    && snap.transfers == DebtSimplification.Simplify(AsAmounts(snap.netByUserId))
  }

  ghost predicate Inv(s: Ledger) {
    && (forall id :: id in s.expenses ==> Sound(s.expenses[id]))
    && (forall g :: g in s.cache ==> Current(s.expenses, g, s.cache[g]))
  }

  // ---------- Amounts and shares

  lemma {:induction false} StoredSharesSum(shares: seq<Split.Share>)
    ensures SumValues(StoredShares(shares)) == Split.SumOwed(shares) * FINE_PER_MINOR
  {
    if shares != [] {
      var n := |shares| - 1;
      StoredSharesSum(shares[..n]);
      assert StoredShares(shares)[..n] == StoredShares(shares[..n]);
      assert Split.Owed(shares) == Split.Owed(shares[..n]) + [shares[n].owed];
      SumAppend(Split.Owed(shares[..n]), [shares[n].owed]);
    }
  }

  /** A total within the split tolerance of its shares is stored within one unit of 10^-4 of them. */
  lemma StoredWithinOneUnit(units: int, total: Decimal)
    requires AbsD(FromUnits(units, SPLIT_SCALE) - total) <= Split.EPS
    ensures Abs(StoredAmount(total) - units * FINE_PER_MINOR) <= 1
  {
    var exact := FromUnits(units, SPLIT_SCALE);
    ScaledUnscaled(units as real, SPLIT_SCALE);
    assert Scaled(exact, 3) == 10.0 * units as real;
    assert Scaled(exact, 4) == 100.0 * units as real;
    assert Scaled(Split.EPS, 2) == 0.01 && Scaled(Split.EPS, 4) == 1.0;
    ScaledLinear(exact + Split.EPS, total, 4);
    ScaledLinear(exact, Split.EPS, 4);
    ScaledLinear(total, exact + Split.EPS, 4);
    ScaledLinear(exact - Split.EPS, total, 4);
    var n := units * FINE_PER_MINOR;
    assert (n - 1) as real <= Scaled(total, 4) <= (n + 1) as real;
    HalfUpMonotone((n - 1) as real, Scaled(total, 4));
    HalfUpMonotone(Scaled(total, 4), (n + 1) as real);
    HalfUpNearest((n - 1) as real, n - 1);
    HalfUpNearest((n + 1) as real, n + 1);
  }

  lemma StoredIsSound(group: GroupId, payer: UserId, amount: Decimal, shares: seq<Split.Share>)
    requires Split.DistinctUsers(shares) && AbsD(FromUnits(Split.SumOwed(shares), SPLIT_SCALE) - amount) <= Split.EPS
    ensures Sound(Expense(group, payer, StoredAmount(amount), StoredShares(shares), false))
  {
    StoredSharesSum(shares);
    StoredWithinOneUnit(Split.SumOwed(shares), amount);
  }

  /** Whatever create or patch stores is sound, for every split type and any amount. */
  lemma PricedIsSound(group: GroupId, payer: UserId, amount: Decimal, split: Split.SplitInput, active: set<UserId>)
    requires Priced(group, payer, amount, split, active).Ok?
    ensures Sound(Priced(group, payer, amount, split, active).value)
  {
    Split.ComputedSharesWithinTolerance(split, amount, SPLIT_SCALE);
    StoredIsSound(group, payer, amount, Split.Compute(split, amount, SPLIT_SCALE).value.shares);
  }

  // ---------- What create, patch and delete store

  /** A row stored for this split: its payer, the amount at four decimals, and each share at two. */
  ghost predicate Stores(e: Expense, group: GroupId, payer: UserId, amount: Decimal, split: Split.SplitInput) {
    var computed := Split.Compute(split, amount, 2);
    && computed.Ok? && e.group == group && e.paidBy == payer && !e.deleted
    && e.amount == ToUnits(amount, 4)
    && |e.shares| == |computed.value.shares|
    && forall i :: 0 <= i < |e.shares| ==>
         e.shares[i] == (computed.value.shares[i].user, 100 * computed.value.shares[i].owed)
  }

  /** The split computes, and the payer and everyone with a share are active members. */
  ghost predicate Storable(payer: UserId, amount: Decimal, split: Split.SplitInput, active: set<UserId>) {
    var computed := Split.Compute(split, amount, 2);
    && computed.Ok? && payer in active
    && forall i :: 0 <= i < |computed.value.shares| ==> computed.value.shares[i].user in active
  }

  lemma PricedCases(group: GroupId, payer: UserId, amount: Decimal, split: Split.SplitInput, active: set<UserId>)
    ensures var r := Priced(group, payer, amount, split, active);
      && (r.Ok? <==> Storable(payer, amount, split, active))
      && (r.Ok? ==> Stores(r.value, group, payer, amount, split))
      && (Split.Compute(split, amount, 2).Err? ==> r == Err(SplitFailed(Split.Compute(split, amount, 2).error)))
      && (Split.Compute(split, amount, 2).Ok? && r.Err? ==> r == Err(ParticipantNotActive))
  {
    match Split.Compute(split, amount, SPLIT_SCALE)
    case Ok(computed) =>
      PricedWhenComputed(group, payer, amount, split, active, computed);
      StoredWhenComputed(group, payer, amount, split, active, computed);
    case Err(_) =>
  }

  lemma PricedWhenComputed(group: GroupId, payer: UserId, amount: Decimal, split: Split.SplitInput,
                           active: set<UserId>, computed: Split.SplitResult)
    requires Split.Compute(split, amount, SPLIT_SCALE) == Ok(computed)
    ensures Priced(group, payer, amount, split, active) ==
      if AllActive(computed.shares, payer, active)
      then Ok(Expense(group, payer, StoredAmount(amount), StoredShares(computed.shares), false))
      else Err(ParticipantNotActive)
  {
  }

  lemma StoredWhenComputed(group: GroupId, payer: UserId, amount: Decimal, split: Split.SplitInput,
                           active: set<UserId>, computed: Split.SplitResult)
    requires Split.Compute(split, amount, SPLIT_SCALE) == Ok(computed)
    ensures var e := Expense(group, payer, StoredAmount(amount), StoredShares(computed.shares), false);
      Stores(e, group, payer, amount, split)
    ensures AllActive(computed.shares, payer, active) <==> Storable(payer, amount, split, active)
  {
    StoredSharesAre(computed.shares);
    assert Split.Compute(split, amount, 2).value.shares == computed.shares;
  }

  lemma StoredSharesAre(shares: seq<Split.Share>)
    ensures |StoredShares(shares)| == |shares|
    ensures forall i :: 0 <= i < |shares| ==> StoredShares(shares)[i] == (shares[i].user, 100 * shares[i].owed)
  {
  }

  /** When a create succeeds, what it adds, and that it changes no other row. */
  lemma CreateCases(s: Ledger, id: ExpenseId, group: GroupId, actor: UserId, payer: UserId, amount: Decimal,
                    split: Split.SplitInput, active: set<UserId>)
    ensures var (after, r) := Create(s, id, group, actor, payer, amount, split, active);
      && (r == Ok(id) <==> actor in active && Storable(payer, amount, split, active) && id !in s.expenses)
      && (actor !in active ==> r == Err(NotGroupMember))
      && (r.Err? ==> after == s)
      && (r.Ok? ==>
            && id in after.expenses && Stores(after.expenses[id], group, payer, amount, split)
            && after.expenses == s.expenses[id := after.expenses[id]]
            && after.cache == s.cache - {group})
  {
    PricedCases(group, payer, amount, split, active);
  }

  /**
   * When a patch succeeds and what it stores: without amount, split, payer or currency the row is left as it is; with a
   * split the amount and the payer are the ones given, or else the ones already stored.
   */
  lemma PatchCases(s: Ledger, id: ExpenseId, group: GroupId, actor: UserId, stale: bool, p: Patch, active: set<UserId>)
    requires actor in active && id in s.expenses && s.expenses[id].group == group && !s.expenses[id].deleted && !stale
    ensures var (after, r) := PatchExpense(s, id, group, actor, stale, p, active);
            var e := s.expenses[id];
            var scalar := p.amount.None? && p.split.None? && p.paidBy.None? && !p.currencyGiven;
      && (scalar ==> r == Ok(id) && after == Ledger(s.expenses, s.cache - {group}))
      && (!scalar && p.split.None? ==> (after, r) == (s, Err(SplitRequired)))
      && (p.split.Some? ==>
            var amount := if p.amount.Some? then p.amount.value else FromUnits(e.amount, 4);
            var payer := if p.paidBy.Some? then p.paidBy.value else e.paidBy;
            && (r == Ok(id) <==> Storable(payer, amount, p.split.value, active))
            && (r.Err? ==> after == s)
            && (r.Ok? ==>
                  && id in after.expenses && Stores(after.expenses[id], group, payer, amount, p.split.value)
                  && (p.amount.None? ==> after.expenses[id].amount == e.amount)
                  && after.expenses == s.expenses[id := after.expenses[id]]
                  && after.cache == s.cache - {group}))
  {
    var e := s.expenses[id];
    assert s.expenses[id := e] == s.expenses;
    UnitsRoundTrip(e.amount, 4);
    if p.split.Some? {
      var amount := if p.amount.Some? then p.amount.value else FromUnits(e.amount, 4);
      PricedCases(group, if p.paidBy.Some? then p.paidBy.value else e.paidBy, amount, p.split.value, active);
    }
  }

  /** Why a patch or a delete is refused before it looks at the row, in order; nothing changes then. */
  lemma RefusedBeforeReading(s: Ledger, id: ExpenseId, group: GroupId, actor: UserId, stale: bool, p: Patch,
                             active: set<UserId>)
    ensures var patch := PatchExpense(s, id, group, actor, stale, p, active);
            var delete := Delete(s, id, group, actor, active);
            var found := id in s.expenses && s.expenses[id].group == group && !s.expenses[id].deleted;
      && (actor !in active ==> patch == delete == (s, Err(NotGroupMember)))
      && (actor in active && !found ==> patch == delete == (s, Err(ExpenseNotFound)))
      && (actor in active && found && stale ==> patch == (s, Err(StaleVersion)))
  {
  }

  /** A delete marks exactly its row, and is the only thing that can be done to it once. */
  lemma DeleteCases(s: Ledger, id: ExpenseId, group: GroupId, actor: UserId, active: set<UserId>)
    ensures var (after, r) := Delete(s, id, group, actor, active);
      && (r == Ok(id) <==>
            actor in active && id in s.expenses && s.expenses[id].group == group && !s.expenses[id].deleted)
      && (r.Ok? ==>
            && after == Ledger(s.expenses[id := s.expenses[id].(deleted := true)], s.cache - {group})
            && Delete(after, id, group, actor, active).1 == Err(ExpenseNotFound))
  {
  }

  // ---------- Order of reading does not matter

  lemma {:induction false} DistinctCounts(order: seq<ExpenseId>, id: ExpenseId)
    requires Distinct(order)
    ensures multiset(order)[id] == if id in order then 1 else 0
  {
    if order != [] {
      assert order == [order[0]] + order[1..];
      DistinctCounts(order[1..], id);
    }
  }

  lemma NetWithout(expenses: map<ExpenseId, Expense>, order: seq<ExpenseId>, k: nat, u: UserId)
    requires k < |order| && forall id :: id in order ==> id in expenses
    ensures LedgerNet(Entries(expenses, order), u) ==
      LedgerNet(Entries(expenses, order[..k] + order[k + 1..]), u) + ExpenseNet(EntryOf(expenses[order[k]]), u)
  {
    var front, e, back := order[..k], order[k], order[k + 1..];
    assert order == (front + [e]) + back;
    EntriesConcat(expenses, front + [e], back);
    EntriesConcat(expenses, front, back);
    assert (front + [e])[..k] == front;
    DeletingUndoesCreating(Entries(expenses, front), EntryOf(expenses[e]), Entries(expenses, back), u);
  }

  lemma {:induction false} EntriesOfPermutation(expenses: map<ExpenseId, Expense>, a: seq<ExpenseId>,
                                                b: seq<ExpenseId>, u: UserId)
    requires (forall id :: id in a ==> id in expenses) && (forall id :: id in b ==> id in expenses)
    requires multiset(a) == multiset(b)
    ensures LedgerNet(Entries(expenses, a), u) == LedgerNet(Entries(expenses, b), u)
  {
    if a == [] {
      assert |multiset(b)| == 0;
    } else {
      var k := Remaining(a, b);
      NetWithout(expenses, a, |a| - 1, u);
      NetWithout(expenses, b, k, u);
      assert a[..|a| - 1] + a[|a|..] == a[..|a| - 1];
      EntriesOfPermutation(expenses, a[..|a| - 1], b[..k] + b[k + 1..], u);
    }
  }

  lemma Remaining(a: seq<ExpenseId>, b: seq<ExpenseId>) returns (k: nat)
    requires a != [] && multiset(a) == multiset(b)
    ensures k < |b| && b[k] == a[|a| - 1]
    ensures multiset(a[..|a| - 1]) == multiset(b[..k] + b[k + 1..])
  {
    var n := |a| - 1;
    assert a == a[..n] + [a[n]];
    assert a[n] in multiset(b);
    k :| 0 <= k < |b| && b[k] == a[n];
    var c := b[..k] + b[k + 1..];
    assert b == b[..k] + [b[k]] + b[k + 1..];
    assert multiset(c) == multiset(b) - multiset{a[n]};
    assert multiset(a[..n]) == multiset(a) - multiset{a[n]};
  }

  lemma {:induction false} EntriesConcat(expenses: map<ExpenseId, Expense>, a: seq<ExpenseId>, b: seq<ExpenseId>)
    requires (forall id :: id in a ==> id in expenses) && (forall id :: id in b ==> id in expenses)
    ensures Entries(expenses, a + b) == Entries(expenses, a) + Entries(expenses, b)
  {
    if b == [] {
      assert a + b == a;
    } else {
      var n := |b| - 1;
      assert (a + b)[..|a + b| - 1] == a + b[..n];
      EntriesConcat(expenses, a, b[..n]);
    }
  }

  lemma SameNetsForEveryOrder(expenses: map<ExpenseId, Expense>, group: GroupId, a: seq<ExpenseId>, b: seq<ExpenseId>,
                              u: UserId)
    requires Enumerates(expenses, group, a) && Enumerates(expenses, group, b)
    ensures LedgerNet(Entries(expenses, a), u) == LedgerNet(Entries(expenses, b), u)
  {
    forall id: ExpenseId ensures multiset(a)[id] == multiset(b)[id] {
      DistinctCounts(a, id);
      DistinctCounts(b, id);
    }
    assert multiset(a) == multiset(b);
    EntriesOfPermutation(expenses, a, b, u);
  }

  lemma {:induction false} EntriesFrame(before: map<ExpenseId, Expense>, after: map<ExpenseId, Expense>,
                                        order: seq<ExpenseId>)
    requires forall id :: id in order ==> id in before && id in after && before[id] == after[id]
    ensures Entries(before, order) == Entries(after, order)
  {
    if order != [] {
      EntriesFrame(before, after, order[..|order| - 1]);
    }
  }

  // ---------- Every step keeps the invariant

  /** A snapshot stays current while the group's live expenses stay the same rows. */
  lemma CurrentFrame(before: map<ExpenseId, Expense>, after: map<ExpenseId, Expense>, group: GroupId,
                     snap: GroupBalances)
    requires Current(before, group, snap)
    requires forall id :: (id in before && before[id].group == group) || (id in after && after[id].group == group) ==>
      id in before && id in after && before[id] == after[id]
    ensures Current(after, group, snap)
  {
    forall order, u | Enumerates(after, group, order)
      ensures Get(snap.netByUserId, u) == RoundFine(LedgerNet(Entries(after, order), u))
    {
      assert Enumerates(before, group, order);
      EntriesFrame(before, after, order);
    }
  }

  /** Writing one row of a group and dropping that group's snapshot keeps the invariant. */
  lemma WriteKeepsInv(s: Ledger, id: ExpenseId, e: Expense)
    requires Inv(s) && Sound(e) && (id in s.expenses ==> s.expenses[id].group == e.group)
    ensures Inv(Ledger(s.expenses[id := e], s.cache - {e.group}))
  {
    var after := s.expenses[id := e];
    forall g | g in s.cache - {e.group} ensures Current(after, g, s.cache[g]) {
      CurrentFrame(s.expenses, after, g, s.cache[g]);
    }
  }

  lemma CreateKeepsInv(s: Ledger, id: ExpenseId, group: GroupId, actor: UserId, payer: UserId, amount: Decimal,
                       split: Split.SplitInput, active: set<UserId>)
    requires Inv(s)
    ensures Inv(Create(s, id, group, actor, payer, amount, split, active).0)
  {
    if Create(s, id, group, actor, payer, amount, split, active).1.Ok? {
      PricedIsSound(group, payer, amount, split, active);
      WriteKeepsInv(s, id, Priced(group, payer, amount, split, active).value);
    }
  }

  lemma PatchedIsSound(e: Expense, p: Patch, active: set<UserId>)
    requires Sound(e) && Patched(e, p, active).Ok?
    ensures Sound(Patched(e, p, active).value) && Patched(e, p, active).value.group == e.group
  {
    if NeedsSplit(p) {
      var amount := if p.amount.Some? then p.amount.value else FromUnits(e.amount, FINE_SCALE);
      var payer := if p.paidBy.Some? then p.paidBy.value else e.paidBy;
      PricedIsSound(e.group, payer, amount, p.split.value, active);
    }
  }

  lemma PatchKeepsInv(s: Ledger, id: ExpenseId, group: GroupId, actor: UserId, stale: bool, p: Patch,
                      active: set<UserId>)
    requires Inv(s)
    ensures Inv(PatchExpense(s, id, group, actor, stale, p, active).0)
  {
    if PatchExpense(s, id, group, actor, stale, p, active).1.Ok? {
      PatchedIsSound(s.expenses[id], p, active);
      WriteKeepsInv(s, id, Patched(s.expenses[id], p, active).value);
    }
  }

  lemma DeleteKeepsInv(s: Ledger, id: ExpenseId, group: GroupId, actor: UserId, active: set<UserId>)
    requires Inv(s)
    ensures Inv(Delete(s, id, group, actor, active).0)
  {
    if Delete(s, id, group, actor, active).1.Ok? {
      WriteKeepsInv(s, id, s.expenses[id].(deleted := true));
    }
  }

  /** Cached or recomputed, the snapshot served reports the rounded nets of the live expenses, and stays current. */
  lemma ServedSnapshotIsCurrent(s: Ledger, group: GroupId, order: seq<ExpenseId>)
    requires Inv(s) && Enumerates(s.expenses, group, order)
    ensures Current(s.expenses, group, EnsureSnapshot(s, group, order).1)
    ensures Inv(EnsureSnapshot(s, group, order).0)
  {
    RecomputedIsCurrent(s.expenses, group, order);
  }

  /** A snapshot computed from the group's live expenses, read in any order, is current. */
  lemma RecomputedIsCurrent(expenses: map<ExpenseId, Expense>, group: GroupId, order: seq<ExpenseId>)
    requires Enumerates(expenses, group, order)
    ensures Current(expenses, group, GroupBalancesOf(Entries(expenses, order)))
  {
    var snap := GroupBalancesOf(Entries(expenses, order));
    forall other, u | Enumerates(expenses, group, other)
      ensures Get(snap.netByUserId, u) == RoundFine(LedgerNet(Entries(expenses, other), u))
    {
      ReportedNetIsRoundedLedgerNet(Entries(expenses, order), u);
      SameNetsForEveryOrder(expenses, group, order, other, u);
    }
  }

  // ---------- Whole runs, each call run to completion

  datatype Op =
    | OpCreate(id: ExpenseId, group: GroupId, actor: UserId, payer: UserId, amount: Decimal,
               split: Split.SplitInput, active: set<UserId>)
    | OpPatch(id: ExpenseId, group: GroupId, actor: UserId, stale: bool, p: Patch, active: set<UserId>)
    | OpDelete(id: ExpenseId, group: GroupId, actor: UserId, active: set<UserId>)
    | OpBalances(group: GroupId, order: seq<ExpenseId>)
    | OpExpire(group: GroupId)

  /** `OpBalances` may read the rows in any order; `OpExpire` is a cache entry reaching its time to live. */
  ghost predicate Steps(s: Ledger, op: Op, s': Ledger) {
    match op
    case OpCreate(id, group, actor, payer, amount, split, active) =>
      s' == Create(s, id, group, actor, payer, amount, split, active).0
    case OpPatch(id, group, actor, stale, p, active) => s' == PatchExpense(s, id, group, actor, stale, p, active).0
    case OpDelete(id, group, actor, active) => s' == Delete(s, id, group, actor, active).0
    case OpBalances(group, order) => Enumerates(s.expenses, group, order) && s' == EnsureSnapshot(s, group, order).0
    case OpExpire(group) => s' == s.(cache := s.cache - {group})
  }

  ghost predicate Run(states: seq<Ledger>, ops: seq<Op>) {
    && |states| == |ops| + 1 && states[0] == Ledger(map[], map[])
    && forall i :: 0 <= i < |ops| ==> Steps(states[i], ops[i], states[i + 1])
  }

  lemma StepKeepsInv(s: Ledger, op: Op, s': Ledger)
    requires Inv(s) && Steps(s, op, s')
    ensures Inv(s')
  {
    match op {
      case OpCreate(id, group, actor, payer, amount, split, active) =>
        CreateKeepsInv(s, id, group, actor, payer, amount, split, active);
      case OpPatch(id, group, actor, stale, p, active) => PatchKeepsInv(s, id, group, actor, stale, p, active);
      case OpDelete(id, group, actor, active) => DeleteKeepsInv(s, id, group, actor, active);
      case OpBalances(group, order) => ServedSnapshotIsCurrent(s, group, order);
      case OpExpire(group) =>
    }
  }

  lemma {:induction false} ReachableInv(states: seq<Ledger>, ops: seq<Op>, k: nat)
    requires Run(states, ops) && k < |states|
    ensures Inv(states[k])
  {
    if k > 0 {
      ReachableInv(states, ops, k - 1);
      StepKeepsInv(states[k - 1], ops[k - 1], states[k]);
    }
  }

  /** In every reachable state, the nets a balance read is served equal the nets recomputed from the live expenses. */
  lemma ServedNetsAgreeWithRecomputation(states: seq<Ledger>, ops: seq<Op>, k: nat, group: GroupId,
                                         order: seq<ExpenseId>, reread: seq<ExpenseId>, u: UserId)
    requires Run(states, ops) && k < |states|
    requires Enumerates(states[k].expenses, group, order) && Enumerates(states[k].expenses, group, reread)
    ensures var served := EnsureSnapshot(states[k], group, order).1;
            var recomputed := GroupBalancesOf(Entries(states[k].expenses, reread));
            Get(served.netByUserId, u) == Get(recomputed.netByUserId, u)
  {
    ReachableInv(states, ops, k);
    ServedSnapshotIsCurrent(states[k], group, order);
    ReportedNetIsRoundedLedgerNet(Entries(states[k].expenses, reread), u);
  }

  lemma OneMoreEntry(entries: seq<Entry>, e: Entry, u: UserId)
    ensures var more, drift := entries + [e], e.total - SumValues(e.owed);
      && (CentShares(entries) && CentOwed(e.owed) ==> CentShares(more))
      && PaidDrift(more, u) == PaidDrift(entries, u) + (if e.paidBy == u then drift else 0)
      && Drift(more) == Drift(entries) + drift
      && TotalDrift(more) == TotalDrift(entries) + Abs(drift)
  {
    assert (entries + [e])[..|entries|] == entries;
  }

  lemma {:induction false} EntriesAreSound(s: Ledger, order: seq<ExpenseId>, u: UserId)
    requires Inv(s) && forall id :: id in order ==> id in s.expenses
    ensures var entries := Entries(s.expenses, order);
      && CentShares(entries)
      && Abs(PaidDrift(entries, u)) <= |order|
      && Abs(Drift(entries)) <= |order|
      && TotalDrift(entries) <= |order|
  {
    if order != [] {
      var front, id := order[..|order| - 1], order[|order| - 1];
      assert id in order;
      EntriesAreSound(s, front, u);
      OneMoreEntry(Entries(s.expenses, front), EntryOf(s.expenses[id]), u);
    }
  }

  /** In every reachable state the raw nets of a group's N live expenses sum to within N units of 10^-4. */
  lemma ReachableDrift(states: seq<Ledger>, ops: seq<Op>, k: nat, group: GroupId, order: seq<ExpenseId>)
    requires Run(states, ops) && k < |states| && Enumerates(states[k].expenses, group, order)
    ensures Abs(SumValues(LedgerMap(Entries(states[k].expenses, order)))) <= |order|
  {
    ReachableInv(states, ops, k);
    EntriesAreSound(states[k], order, 0);
    LedgerMapMeans(Entries(states[k].expenses, order), 0);
  }

  /**
   * In every reachable state and for a group of any size: the nets reported for N live expenses are out of balance by
   * at most N / 50 minor units, open credit and open debt end apart by just that much, and one side is cleared to at
   * most one minor unit for each of its users.
   */
  lemma ReachableGroupSettlesWithin(states: seq<Ledger>, ops: seq<Op>, k: nat, group: GroupId, order: seq<ExpenseId>)
    requires Run(states, ops) && k < |states| && Enumerates(states[k].expenses, group, order)
    ensures var r := GroupBalancesOf(Entries(states[k].expenses, order));
            var nets, ts := AsAmounts(r.netByUserId), r.transfers;
            var debtSide := DebtSimplification.OutOfDebtors(nets);
      && 50 * Abs(SumValues(r.netByUserId)) <= |order|
      && DebtSimplification.Unsettled(nets, ts, false) - DebtSimplification.Unsettled(nets, ts, true) ==
           SumValues(r.netByUserId)
      && DebtSimplification.Unsettled(nets, ts, debtSide) <= DebtSimplification.CountSide(nets, debtSide)
  {
    ReachableInv(states, ops, k);
    EntriesAreSound(states[k], order, 0);
    LedgerSettlesWithin(Entries(states[k].expenses, order));
  }

  // ---------- The bound is attained

  const ODD_AMOUNT: Decimal := 1.0001

  function OddExpense(group: GroupId, payer: UserId, ower: UserId): Expense {
    Expense(group, payer, 10001, [(ower, 10000)], false)
  }

  /** What is stored for 1.0001 paid by one member and owed by another alone. */
  lemma PricedOdd(group: GroupId, payer: UserId, ower: UserId)
    ensures Priced(group, payer, ODD_AMOUNT, Split.Equal([ower]), {payer, ower}) == Ok(OddExpense(group, payer, ower))
  {
    assert Scaled(ODD_AMOUNT, 1) == 10.001 && Scaled(ODD_AMOUNT, 2) == 100.01 && Scaled(ODD_AMOUNT, 3) == 1000.1;
    assert ToUnits(ODD_AMOUNT, SPLIT_SCALE) == 100 && StoredAmount(ODD_AMOUNT) == 10001;
    OneEqualShare(ower);
    assert Unscaled(100.0, 1) == 10.0 && FromUnits(100, SPLIT_SCALE) == 1.0;
    RoundingEngine.MinorUnitsExact(ODD_AMOUNT, 0, SPLIT_SCALE);
    var shares := [Split.Share(ower, 100)];
    assert Split.Owed(shares) == [100] && Split.SumOwed(shares) == 100 by { assert [100][1..] == []; }
    assert Split.Compute(Split.Equal([ower]), ODD_AMOUNT, SPLIT_SCALE) == Ok(Split.SplitResult(shares, 100));
    assert StoredShares(shares) == [(ower, 10000)];
  }

  lemma OneEqualShare(ower: UserId)
    requires ToUnits(ODD_AMOUNT, SPLIT_SCALE) == 100
    ensures Split.EqualShares([ower], ODD_AMOUNT, SPLIT_SCALE) == Ok([Split.Share(ower, 100)])
  {
    assert [ower][..0] == [] && Dedup([ower]) == [ower];
    RoundingEngine.EqualSharesAreFair(ODD_AMOUNT, 1, SPLIT_SCALE);
    var parts := RoundingEngine.DistributeEqual(ODD_AMOUNT, 1, SPLIT_SCALE).value;
    assert parts[1..] == [] && parts == [100];
    assert Split.Zip([ower], parts) == [Split.Share(ower, 100)];
  }

  function OddExpenses(group: GroupId, payer: UserId, ower: UserId, n: nat): (r: map<ExpenseId, Expense>)
    ensures forall id: ExpenseId :: id in r <==> id < n
    ensures forall id: ExpenseId :: id in r ==> r[id] == OddExpense(group, payer, ower)
  {
    if n == 0 then map[] else OddExpenses(group, payer, ower, n - 1)[n - 1 := OddExpense(group, payer, ower)]
  }

  function OddLedger(group: GroupId, payer: UserId, ower: UserId, n: nat): Ledger {
    Ledger(OddExpenses(group, payer, ower, n), map[])
  }

  function FirstIds(n: nat): (r: seq<ExpenseId>)
    ensures |r| == n && forall i :: 0 <= i < n ==> r[i] == i
  {
    seq(n, i => i)
  }

  /** Creating the same expense n times is a run. */
  lemma {:induction false} OddRun(group: GroupId, payer: UserId, ower: UserId, n: nat)
    returns (states: seq<Ledger>, ops: seq<Op>)
    ensures Run(states, ops) && |ops| == n && states[n] == OddLedger(group, payer, ower, n)
  {
    if n == 0 {
      states, ops := [OddLedger(group, payer, ower, 0)], [];
    } else {
      states, ops := OddRun(group, payer, ower, n - 1);
      PricedOdd(group, payer, ower);
      var last, next := OddLedger(group, payer, ower, n - 1), OddLedger(group, payer, ower, n);
      var op := OpCreate(n - 1, group, payer, payer, ODD_AMOUNT, Split.Equal([ower]), {payer, ower});
      assert map[] - {group} == last.cache;
      assert Steps(last, op, next);
      states, ops := states + [next], ops + [op];
    }
  }

  lemma {:induction false} OddEntries(group: GroupId, payer: UserId, ower: UserId, n: nat, k: nat)
    requires k <= n
    ensures forall id :: id in FirstIds(k) ==> id < n
    ensures Entries(OddLedger(group, payer, ower, n).expenses, FirstIds(k)) == Copies(Odd(payer, ower), k)
  {
    if k > 0 {
      OddEntries(group, payer, ower, n, k - 1);
      assert FirstIds(k)[..k - 1] == FirstIds(k - 1) && FirstIds(k)[k - 1] == k - 1;
      assert EntryOf(OddExpense(group, payer, ower)) == Odd(payer, ower);
    }
  }

  /**
   * A run after which a group's n live expenses report nets out of balance by n units of 10^-4, rounded: zero below
   * fifty expenses, and one minor unit at fifty.
   */
  lemma OddExpensesUnbalance(group: GroupId, payer: UserId, ower: UserId, n: nat)
    returns (states: seq<Ledger>, ops: seq<Op>, order: seq<ExpenseId>)
    requires payer != ower && n > 0
    ensures Run(states, ops) && |states| == n + 1 && |order| == n
    ensures Enumerates(states[n].expenses, group, order)
    ensures SumValues(GroupBalancesOf(Entries(states[n].expenses, order)).netByUserId) == RoundFine(n)
  {
    states, ops := OddRun(group, payer, ower, n);
    order := FirstIds(n);
    forall id: ExpenseId ensures id in order <==> id < n {
      if id < n { assert order[id] == id; }
    }
    OddEntries(group, payer, ower, n, n);
    OddCopiesImbalance(payer, ower, n);
  }

  /**
   * In every reachable state a group with fewer than fifty live expenses has reported nets that sum to exactly
   * zero, and its transfers leave as much open debt as open credit.
   */
  lemma ReachableGroupSettles(states: seq<Ledger>, ops: seq<Op>, k: nat, group: GroupId, order: seq<ExpenseId>)
    requires Run(states, ops) && k < |states| && Enumerates(states[k].expenses, group, order) && |order| < 50
    ensures var r := GroupBalancesOf(Entries(states[k].expenses, order));
            var nets := AsAmounts(r.netByUserId);
      && SumValues(r.netByUserId) == 0
      && DebtSimplification.Unsettled(nets, r.transfers, true) == DebtSimplification.Unsettled(nets, r.transfers, false)
      && DebtSimplification.Unsettled(nets, r.transfers, true) <=
           Max(DebtSimplification.CountSide(nets, true), DebtSimplification.CountSide(nets, false))
  {
    var r := GroupBalancesOf(Entries(states[k].expenses, order));
    ReachableGroupSettlesWithin(states, ops, k, group, order);
    ReportedNetIsRoundedLedgerNet(Entries(states[k].expenses, order), 0);
    AsAmountsMeans(r.netByUserId, 0);
    DebtSimplification.BalancedSettlement(AsAmounts(r.netByUserId));
  }

  lemma CentAmountIsExact(e: Expense)
    requires Sound(e) && e.amount % FINE_PER_MINOR == 0
    ensures e.amount == SumValues(e.shares)
  {
    CentSums(e.shares, 0);
  }

  lemma {:induction false} CentEntriesAreExact(s: Ledger, order: seq<ExpenseId>)
    requires Inv(s) && forall id :: id in order ==> id in s.expenses && s.expenses[id].amount % FINE_PER_MINOR == 0
    ensures var entries := Entries(s.expenses, order);
            forall i :: 0 <= i < |entries| ==> entries[i].total == SumValues(entries[i].owed)
  {
    if order != [] {
      var n := |order| - 1;
      CentEntriesAreExact(s, order[..n]);
      CentAmountIsExact(s.expenses[order[n]]);
      assert Entries(s.expenses, order) == Entries(s.expenses, order[..n]) + [EntryOf(s.expenses[order[n]])];
    }
  }

  /**
   * In every reachable state a group whose live amounts are whole cents, however many, has raw and reported nets that
   * sum to exactly zero, and its transfers leave as much open debt as open credit.
   */
  lemma ReachableCentGroupSettles(states: seq<Ledger>, ops: seq<Op>, k: nat, group: GroupId, order: seq<ExpenseId>)
    requires Run(states, ops) && k < |states| && Enumerates(states[k].expenses, group, order)
    requires forall id :: id in order ==> states[k].expenses[id].amount % FINE_PER_MINOR == 0
    ensures var entries := Entries(states[k].expenses, order);
            var r := GroupBalancesOf(entries);
            var nets := AsAmounts(r.netByUserId);
      && SumValues(LedgerMap(entries)) == 0 && SumValues(r.netByUserId) == 0
      && DebtSimplification.Unsettled(nets, r.transfers, true) == DebtSimplification.Unsettled(nets, r.transfers, false)
      && DebtSimplification.Unsettled(nets, r.transfers, true) <=
           Max(DebtSimplification.CountSide(nets, true), DebtSimplification.CountSide(nets, false))
  {
    var entries := Entries(states[k].expenses, order);
    ReachableInv(states, ops, k);
    EntriesAreSound(states[k], order, 0);
    CentEntriesAreExact(states[k], order);
    forall u ensures PaidDrift(entries, u) == 0 { ExactLedgerHasNoDrift(entries, u); }
    ExactLedgerHasNoDrift(entries, 0);
    ReportedNetsBalance(entries);
    LedgerSettles(entries, 0);
  }

  /** Deleting an expense right after creating it leaves every group's live expenses as they were. */
  lemma DeleteUndoesCreate(s: Ledger, id: ExpenseId, group: GroupId, actor: UserId, payer: UserId, amount: Decimal,
                           split: Split.SplitInput, active: set<UserId>, g: GroupId, order: seq<ExpenseId>, u: UserId)
    requires Create(s, id, group, actor, payer, amount, split, active).1.Ok?
    ensures var created := Create(s, id, group, actor, payer, amount, split, active).0;
            var deleted := Delete(created, id, group, actor, active);
      && deleted.1.Ok?
      && (Enumerates(s.expenses, g, order) <==> Enumerates(deleted.0.expenses, g, order))
      && (Enumerates(s.expenses, g, order) ==> Entries(deleted.0.expenses, order) == Entries(s.expenses, order))
  {
    var created := Create(s, id, group, actor, payer, amount, split, active).0;
    var deleted := Delete(created, id, group, actor, active).0;
    assert forall x :: x != id ==> (x in s.expenses <==> x in deleted.expenses);
    assert forall x :: x != id && x in s.expenses ==> s.expenses[x] == deleted.expenses[x];
    if Enumerates(s.expenses, g, order) {
      EntriesFrame(s.expenses, deleted.expenses, order);
    }
  }

  // ---------- The service

  class ExpensesService {
    var expenses: map<ExpenseId, Expense>
    var cache: map<GroupId, GroupBalances>

    ghost function State(): Ledger
      reads this
    {
      Ledger(expenses, cache)
    }

    constructor ()
      ensures State() == Ledger(map[], map[])
    {
      expenses, cache := map[], map[];
    }

    /** Computes the split, checks the users, and builds the participant rows one by one. */
    method PriceExpense(group: GroupId, payer: UserId, amount: Decimal, split: Split.SplitInput, active: set<UserId>)
      returns (r: Result<Expense, LedgerError>)
      ensures r == Priced(group, payer, amount, split, active)
    {
      var computed := Split.ComputeSplit(split, amount, SPLIT_SCALE);
      if computed.Err? {
        return Err(SplitFailed(computed.error));
      }
      var shares := computed.value.shares;
      if !AllActive(shares, payer, active) {
        return Err(ParticipantNotActive);
      }
      var rows: OMap := [];
      for k := 0 to |shares|
        invariant rows == StoredShares(shares)[..k]
      {
        rows := rows + [(shares[k].user, shares[k].owed * FINE_PER_MINOR)];
      }
      assert rows == StoredShares(shares);
      return Ok(Expense(group, payer, StoredAmount(amount), rows, false));
    }

    method CreateExpense(id: ExpenseId, group: GroupId, actor: UserId, payer: UserId, amount: Decimal,
                         split: Split.SplitInput, active: set<UserId>) returns (r: Result<ExpenseId, LedgerError>)
      modifies this
      ensures (State(), r) == Create(old(State()), id, group, actor, payer, amount, split, active)
      ensures Inv(old(State())) ==> Inv(State())
    {
      if Inv(State()) { CreateKeepsInv(State(), id, group, actor, payer, amount, split, active); }
      if actor !in active {
        return Err(NotGroupMember);
      }
      var priced := PriceExpense(group, payer, amount, split, active);
      if priced.Err? {
        return Err(priced.error);
      }
      if id in expenses {
        return Err(DuplicateId);
      }
      expenses := expenses[id := priced.value];
      cache := cache - {group};
      return Ok(id);
    }

    method Update(id: ExpenseId, group: GroupId, actor: UserId, stale: bool, p: Patch, active: set<UserId>)
      returns (r: Result<ExpenseId, LedgerError>)
      modifies this
      ensures (State(), r) == PatchExpense(old(State()), id, group, actor, stale, p, active)
      ensures Inv(old(State())) ==> Inv(State())
    {
      if Inv(State()) { PatchKeepsInv(State(), id, group, actor, stale, p, active); }
      if actor !in active {
        return Err(NotGroupMember);
      }
      if id !in expenses || expenses[id].group != group || expenses[id].deleted {
        return Err(ExpenseNotFound);
      }
      if stale {
        return Err(StaleVersion);
      }
      var existing := expenses[id];
      if NeedsSplit(p) {
        var amount := if p.amount.Some? then p.amount.value else FromUnits(existing.amount, FINE_SCALE);
        var payer := if p.paidBy.Some? then p.paidBy.value else existing.paidBy;
        if p.split.None? {
          return Err(SplitRequired);
        }
        var priced := PriceExpense(existing.group, payer, amount, p.split.value, active);
        if priced.Err? {
          return Err(priced.error);
        }
        expenses := expenses[id := priced.value];
      }
      assert old(expenses)[id := existing] == old(expenses);
      cache := cache - {group};
      return Ok(id);
    }

    method DeleteExpense(id: ExpenseId, group: GroupId, actor: UserId, active: set<UserId>)
      returns (r: Result<ExpenseId, LedgerError>)
      modifies this
      ensures (State(), r) == Delete(old(State()), id, group, actor, active)
      ensures Inv(old(State())) ==> Inv(State())
    {
      if Inv(State()) { DeleteKeepsInv(State(), id, group, actor, active); }
      if actor !in active {
        return Err(NotGroupMember);
      }
      if id !in expenses || expenses[id].group != group || expenses[id].deleted {
        return Err(ExpenseNotFound);
      }
      expenses := expenses[id := expenses[id].(deleted := true)];
      cache := cache - {group};
      return Ok(id);
    }

    /** `order` is the order in which the query returns the group's live expenses. */
    method EnsureBalanceSnapshot(group: GroupId, order: seq<ExpenseId>) returns (snap: GroupBalances)
      requires Inv(State()) && Enumerates(expenses, group, order)
      modifies this
      ensures (State(), snap) == EnsureSnapshot(old(State()), group, order)
      ensures Inv(State()) && Current(expenses, group, snap)
    {
      ServedSnapshotIsCurrent(State(), group, order);
      if group in cache {
        return cache[group];
      }
      var entries: seq<Entry> := [];
      for k := 0 to |order|
        invariant entries == Entries(expenses, order[..k])
      {
        assert order[..k + 1][..k] == order[..k];
        entries := entries + [EntryOf(expenses[order[k]])];
      }
      assert order[..|order|] == order;
      snap := ComputeGroupBalances(entries);
      cache := cache[group := snap];
    }
  }
}
