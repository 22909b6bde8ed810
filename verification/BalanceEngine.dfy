/**
 * Nets of a ledger and their settlement. Amounts are stored amounts, in units of 10^-4; the engine rounds
 * each user's net to two decimals before settling.
 */
module BalanceEngine {
  import opened Sequences
  import opened Decimals
  import opened OrderedMaps
  import opened DebtSimplification

  /** One expense: who paid, how much, and what each participant owes (one entry per participant). */
  datatype Entry = Entry(paidBy: UserId, total: int, owed: OMap)

  datatype GroupBalances = GroupBalances(netByUserId: OMap, transfers: seq<Transfer>)

  // ---------- What a net means, without maps

  /** What one expense adds to user u's net. */
  function ExpenseNet(e: Entry, u: UserId): int {
    (if e.paidBy == u then e.total else 0) - SumAt(e.owed, u)
  }

  function LedgerNet(ledger: seq<Entry>, u: UserId): int {
    if ledger == [] then 0
    else LedgerNet(ledger[..|ledger| - 1], u) + ExpenseNet(ledger[|ledger| - 1], u)
  }

  /** By how much the expense amounts exceed the shares, over the whole ledger. */
  function Drift(ledger: seq<Entry>): int {
    if ledger == [] then 0
    else
      var e := ledger[|ledger| - 1];
      Drift(ledger[..|ledger| - 1]) + e.total - SumValues(e.owed)
  }

  // ---------- The maps the engine builds

  function Negated(owed: OMap): (r: OMap)
    ensures |r| == |owed|
  {
    seq(|owed|, i requires 0 <= i < |owed| => (owed[i].0, -owed[i].1))
  }

  function NetFromExpense(e: Entry): OMap {
    Add(AddAll([], Negated(e.owed)), e.paidBy, e.total)
  }

  function LedgerMap(ledger: seq<Entry>): OMap {
    if ledger == [] then []
    else AddAll(LedgerMap(ledger[..|ledger| - 1]), NetFromExpense(ledger[|ledger| - 1]))
  }

  /** Rounds every net to two decimals and drops the zeros; values in minor units. */
  function RoundedNets(net: OMap): OMap {
    if net == [] then []
    else
      var last := net[|net| - 1];
      var v := RoundFine(last.1);
      RoundedNets(net[..|net| - 1]) + (if v != 0 then [(last.0, v)] else [])
  }

  /** The rounded nets as amounts again, as they are handed to the settlement. */
  function AsAmounts(nets: OMap): (r: Nets)
    ensures |r| == |nets|
  {
    seq(|nets|, i requires 0 <= i < |nets| => (nets[i].0, nets[i].1 * FINE_PER_MINOR))
  }

  function GroupBalancesOf(ledger: seq<Entry>): GroupBalances {
    var nets := RoundedNets(LedgerMap(ledger));
    GroupBalances(nets, Simplify(AsAmounts(nets)))
  }

  // ---------- The loops

  method ExpenseDeltas(e: Entry) returns (net: OMap)
    ensures net == NetFromExpense(e)
  {
    net := [];
    ghost var neg := Negated(e.owed);
    for k := 0 to |e.owed|
      invariant net == AddAll([], neg[..k])
    {
      var userId, owed := e.owed[k].0, e.owed[k].1;
      assert neg[..k + 1][..k] == neg[..k];
      net := Put(net, userId, Get(net, userId) - owed);
    }
    assert neg[..|neg|] == neg;
    net := Put(net, e.paidBy, Get(net, e.paidBy) + e.total);
  }

  method MergeDeltas(before: OMap, delta: OMap) returns (net: OMap)
    ensures net == AddAll(before, delta)
  {
    net := before;
    for k := 0 to |delta|
      invariant net == AddAll(before, delta[..k])
    {
      assert delta[..k + 1][..k] == delta[..k];
      net := Put(net, delta[k].0, Get(net, delta[k].0) + delta[k].1);
    }
    assert delta[..|delta|] == delta;
  }

  method RoundNets(net: OMap) returns (netByUserId: OMap)
    ensures netByUserId == RoundedNets(net)
  {
    netByUserId := [];
    for k := 0 to |net|
      invariant netByUserId == RoundedNets(net[..k])
    {
      assert net[..k + 1][..k] == net[..k];
      var rounded := RoundFine(net[k].1);
      if rounded != 0 {
        netByUserId := netByUserId + [(net[k].0, rounded)];
      }
    }
    assert net[..|net|] == net;
  }

  method ComputeGroupBalances(ledger: seq<Entry>) returns (r: GroupBalances)
    ensures r == GroupBalancesOf(ledger)
  {
    var net: OMap := [];
    for i := 0 to |ledger|
      invariant net == LedgerMap(ledger[..i])
    {
      var delta := ExpenseDeltas(ledger[i]);
      net := MergeDeltas(net, delta);
      assert ledger[..i + 1][..i] == ledger[..i];
    }
    assert ledger[..|ledger|] == ledger;
    var netByUserId := RoundNets(net);
    var transfers := SimplifyDebts(AsAmounts(netByUserId));
    r := GroupBalances(netByUserId, transfers);
  }

  // ---------- The maps mean what they should

  lemma {:induction false} NegatedMeans(owed: OMap, u: UserId)
    ensures SumAt(Negated(owed), u) == -SumAt(owed, u) && SumValues(Negated(owed)) == -SumValues(owed)
  {
    if owed != [] {
      assert Negated(owed)[..|owed| - 1] == Negated(owed[..|owed| - 1]);
      NegatedMeans(owed[..|owed| - 1], u);
    }
  }

  lemma NetFromExpenseMeans(e: Entry, u: UserId)
    ensures OneEntryPerKey(NetFromExpense(e)) && Get(NetFromExpense(e), u) == ExpenseNet(e, u)
    ensures SumValues(NetFromExpense(e)) == e.total - SumValues(e.owed)
  {
    NegatedMeans(e.owed, u);
    AddAllMeans([], Negated(e.owed), u);
    AddFacts(AddAll([], Negated(e.owed)), e.paidBy, e.total, u);
  }

  lemma AddExpenseMeans(net: OMap, e: Entry, u: UserId)
    requires OneEntryPerKey(net)
    ensures var r := AddAll(net, NetFromExpense(e));
      && OneEntryPerKey(r)
      && Get(r, u) == Get(net, u) + ExpenseNet(e, u)
      && SumValues(r) == SumValues(net) + e.total - SumValues(e.owed)
  {
    NetFromExpenseMeans(e, u);
    AddAllMeans(net, NetFromExpense(e), u);
    GetIsSumAt(NetFromExpense(e), u);
  }

  /** The accumulated map holds exactly each user's ledger net, and its values sum to the ledger's drift. */
  lemma {:induction false} LedgerMapMeans(ledger: seq<Entry>, u: UserId)
    ensures OneEntryPerKey(LedgerMap(ledger)) && Get(LedgerMap(ledger), u) == LedgerNet(ledger, u)
    ensures SumValues(LedgerMap(ledger)) == Drift(ledger)
  {
    if ledger != [] {
      var front, last := ledger[..|ledger| - 1], ledger[|ledger| - 1];
      LedgerMapMeans(front, u);
      AddExpenseMeans(LedgerMap(front), last, u);
    }
  }

  lemma {:induction false} RoundedNetsMeans(net: OMap, u: UserId)
    requires OneEntryPerKey(net)
    ensures OneEntryPerKey(RoundedNets(net))
    ensures Get(RoundedNets(net), u) == RoundFine(Get(net, u))
    ensures (exists i :: 0 <= i < |RoundedNets(net)| && RoundedNets(net)[i].0 == u) ==> RoundFine(Get(net, u)) != 0
    ensures |RoundedNets(net)| <= |net|
  {
    if net != [] {
      var front, last := net[..|net| - 1], net[|net| - 1];
      RoundedNetsMeans(front, u);
      RoundedNetsMeans(front, last.0);
      GetFront(net, u);
      GetFront(net, last.0);
      assert Get(front, last.0) == 0;
      var r := RoundedNets(net);
      if RoundFine(last.1) != 0 {
        assert r[..|r| - 1] == RoundedNets(front);
        GetFront(r, u);
      } else {
        assert r == RoundedNets(front);
      }
    }
  }

  lemma {:induction false} AsAmountsMeans(nets: OMap, u: UserId)
    requires OneEntryPerKey(nets)
    ensures OneEntryPerUser(AsAmounts(nets)) && MinorNet(AsAmounts(nets), u) == Get(nets, u)
    ensures SumMinor(AsAmounts(nets)) == SumValues(nets)
  {
    if nets != [] {
      var front := nets[..|nets| - 1];
      assert AsAmounts(nets)[..|nets| - 1] == AsAmounts(front);
      AsAmountsMeans(front, u);
      GetFront(nets, u);
    }
  }

  /** The net the engine reports for a user is that user's ledger net, rounded; users who round to zero are absent. */
  lemma ReportedNetIsRoundedLedgerNet(ledger: seq<Entry>, u: UserId)
    ensures var nets := GroupBalancesOf(ledger).netByUserId;
      && OneEntryPerKey(nets)
      && Get(nets, u) == RoundFine(LedgerNet(ledger, u))
      && ((exists i :: 0 <= i < |nets| && nets[i].0 == u) <==> RoundFine(LedgerNet(ledger, u)) != 0)
      && MinorNet(AsAmounts(nets), u) == RoundFine(LedgerNet(ledger, u))
  {
    LedgerMapMeans(ledger, u);
    RoundedNetsMeans(LedgerMap(ledger), u);
    AsAmountsMeans(RoundedNets(LedgerMap(ledger)), u);
    var nets := GroupBalancesOf(ledger).netByUserId;
    if Get(nets, u) != 0 {
      assert nets[IndexOf(nets, u)].0 == u;
    }
  }

  // ---------- Algebra of nets

  lemma {:induction false} NetOfConcatenation(a: seq<Entry>, b: seq<Entry>, u: UserId)
    ensures LedgerNet(a + b, u) == LedgerNet(a, u) + LedgerNet(b, u)
  {
    if b == [] {
      assert a + b == a;
    } else {
      assert (a + b)[..|a + b| - 1] == a + b[..|b| - 1];
      NetOfConcatenation(a, b[..|b| - 1], u);
    }
  }

  /** Removing an expense, wherever it stands in the ledger, undoes what adding it did to every net. */
  lemma DeletingUndoesCreating(a: seq<Entry>, e: Entry, b: seq<Entry>, u: UserId)
    ensures LedgerNet(a + [e] + b, u) - ExpenseNet(e, u) == LedgerNet(a + b, u)
  {
    NetOfConcatenation(a + [e], b, u);
    NetOfConcatenation(a, b, u);
    assert (a + [e])[..|a|] == a;
  }

  /** Nets do not depend on the order in which the expenses are read. */
  lemma {:induction false} NetIsOrderIndependent(a: seq<Entry>, b: seq<Entry>, u: UserId)
    requires multiset(a) == multiset(b)
    ensures LedgerNet(a, u) == LedgerNet(b, u)
  {
    if a == [] {
      assert |multiset(b)| == 0;
    } else {
      var n := |a| - 1;
      var e := a[n];
      assert a == a[..n] + [e];
      assert e in multiset(b);
      var k :| 0 <= k < |b| && b[k] == e;
      var c := b[..k] + b[k + 1..];
      assert b == b[..k] + [e] + b[k + 1..];
      assert multiset(c) == multiset(b) - multiset{e};
      assert multiset(a[..n]) == multiset(a) - multiset{e};
      NetIsOrderIndependent(a[..n], c, u);
      DeletingUndoesCreating(b[..k], e, b[k + 1..], u);
    }
  }

  // ---------- End to end: from a ledger to a settlement that balances

  ghost predicate CentOwed(owed: OMap) {
    forall k :: 0 <= k < |owed| ==> owed[k].1 % FINE_PER_MINOR == 0
  }

  /** Shares are whole minor units, as the split service produces them. */
  ghost predicate CentShares(ledger: seq<Entry>) {
    forall i :: 0 <= i < |ledger| ==> CentOwed(ledger[i].owed)
  }

  /** Excess of amount over shares in the expenses user u paid. */
  function PaidDrift(ledger: seq<Entry>, u: UserId): int {
    if ledger == [] then 0
    else
      var e := ledger[|ledger| - 1];
      PaidDrift(ledger[..|ledger| - 1], u) + (if e.paidBy == u then e.total - SumValues(e.owed) else 0)
  }

  /** No payer's accumulated drift reaches half a minor unit. */
  ghost predicate SmallDrift(ledger: seq<Entry>) {
    forall u :: -50 < PaidDrift(ledger, u) < 50
  }

  /** The same ledger with every amount replaced by the sum of its shares. */
  function Squared(ledger: seq<Entry>): seq<Entry> {
    if ledger == [] then []
    else
      var e := ledger[|ledger| - 1];
      Squared(ledger[..|ledger| - 1]) + [e.(total := SumValues(e.owed))]
  }

  lemma {:induction false} SquaredNet(ledger: seq<Entry>, u: UserId)
    ensures LedgerNet(ledger, u) == LedgerNet(Squared(ledger), u) + PaidDrift(ledger, u)
    ensures Drift(Squared(ledger)) == 0
  {
    if ledger != [] {
      var front, e := ledger[..|ledger| - 1], ledger[|ledger| - 1];
      SquaredNet(front, u);
      assert Squared(ledger)[..|Squared(ledger)| - 1] == Squared(front);
    }
  }

  lemma CentExpense(e: Entry, u: UserId)
    requires CentOwed(e.owed) && e.total == SumValues(e.owed)
    ensures ExpenseNet(e, u) % FINE_PER_MINOR == 0
  {
    CentSums(e.owed, u);
  }

  lemma CentAdd(a: int, b: int)
    requires a % FINE_PER_MINOR == 0 && b % FINE_PER_MINOR == 0
    ensures (a + b) % FINE_PER_MINOR == 0
  {
  }

  lemma {:induction false} SquaredCents(ledger: seq<Entry>, u: UserId)
    requires CentShares(ledger)
    ensures LedgerNet(Squared(ledger), u) % FINE_PER_MINOR == 0
  {
    if ledger != [] {
      var front, e := ledger[..|ledger| - 1], ledger[|ledger| - 1];
      SquaredCents(front, u);
      CentStep(Squared(front), e.(total := SumValues(e.owed)), u);
    }
  }

  lemma CentStep(ledger: seq<Entry>, e: Entry, u: UserId)
    requires LedgerNet(ledger, u) % FINE_PER_MINOR == 0
    requires CentOwed(e.owed) && e.total == SumValues(e.owed)
    ensures LedgerNet(ledger + [e], u) % FINE_PER_MINOR == 0
  {
    CentExpense(e, u);
    assert (ledger + [e])[..|ledger|] == ledger;
    CentAdd(LedgerNet(ledger, u), ExpenseNet(e, u));
  }

  lemma {:induction false} SquaredKeys(ledger: seq<Entry>)
    ensures Keys(LedgerMap(ledger)) == Keys(LedgerMap(Squared(ledger)))
  {
    if ledger != [] {
      var front, e := ledger[..|ledger| - 1], ledger[|ledger| - 1];
      var e' := e.(total := SumValues(e.owed));
      SquaredKeys(front);
      assert Squared(ledger)[..|Squared(ledger)| - 1] == Squared(front);
      KeysAdd(AddAll([], Negated(e.owed)), AddAll([], Negated(e.owed)), e.paidBy, e.total, e'.total);
      KeysAddAll(LedgerMap(front), LedgerMap(Squared(front)), NetFromExpense(e), NetFromExpense(e'));
    }
  }

  lemma {:induction false} CentSums(owed: OMap, u: UserId)
    requires CentOwed(owed)
    ensures SumValues(owed) % FINE_PER_MINOR == 0 && SumAt(owed, u) % FINE_PER_MINOR == 0
  {
    if owed != [] {
      CentSums(owed[..|owed| - 1], u);
    }
  }

  /** What rounding carries over when a net of whole minor units has drifted. */
  lemma CarryOf(whole: int, drift: int)
    requires whole % FINE_PER_MINOR == 0
    ensures var c := RoundFine(whole + drift) - whole / FINE_PER_MINOR;
      && Abs(FINE_PER_MINOR * c - drift) <= 50
      && 50 * Abs(c) <= Abs(drift)
      && (-50 < drift < 50 ==> c == 0)
  {
  }

  /** The minor units by which rounding takes user u's net away from what the shares alone give. */
  function Carry(ledger: seq<Entry>, u: UserId): int {
    RoundFine(LedgerNet(ledger, u)) - LedgerNet(Squared(ledger), u) / FINE_PER_MINOR
  }

  /** A user's carry is the drift of what they paid, to the nearest minor unit; zero for drifts below half a unit. */
  lemma CarryIsRoundedDrift(ledger: seq<Entry>, u: UserId)
    requires CentShares(ledger)
    ensures Abs(FINE_PER_MINOR * Carry(ledger, u) - PaidDrift(ledger, u)) <= 50
    ensures 50 * Abs(Carry(ledger, u)) <= Abs(PaidDrift(ledger, u))
    ensures -50 < PaidDrift(ledger, u) < 50 ==> Carry(ledger, u) == 0
  {
    SquaredNet(ledger, u);
    SquaredCents(ledger, u);
    CarryOf(LedgerNet(Squared(ledger), u), PaidDrift(ledger, u));
  }

  /** The carries of all users of the ledger. */
  function Carries(ledger: seq<Entry>): (r: seq<int>)
    ensures |r| == |LedgerMap(ledger)|
  {
    seq(|LedgerMap(ledger)|, i requires 0 <= i < |LedgerMap(ledger)| => Carry(ledger, LedgerMap(ledger)[i].0))
  }

  lemma {:induction false} RoundedSum(net: OMap, whole: OMap, carries: seq<int>)
    requires |net| == |whole| == |carries|
    requires forall i :: 0 <= i < |net| ==> (RoundFine(net[i].1) - carries[i]) * FINE_PER_MINOR == whole[i].1
    ensures (SumValues(RoundedNets(net)) - Sum(carries)) * FINE_PER_MINOR == SumValues(whole)
  {
    if net != [] {
      var n := |net| - 1;
      RoundedSum(net[..n], whole[..n], carries[..n]);
      SumAppend(carries[..n], [carries[n]]);
      assert carries == carries[..n] + [carries[n]];
      RoundedOneMore(net);
    }
  }

  lemma EntryOfLedgerMap(ledger: seq<Entry>, i: nat)
    requires i < |LedgerMap(ledger)|
    ensures LedgerMap(ledger)[i].1 == LedgerNet(ledger, LedgerMap(ledger)[i].0)
  {
    LedgerMapMeans(ledger, LedgerMap(ledger)[i].0);
    IndexUnique(LedgerMap(ledger), LedgerMap(ledger)[i].0, i);
  }

  lemma RoundedEntry(ledger: seq<Entry>, i: nat)
    requires CentShares(ledger) && i < |LedgerMap(ledger)|
    ensures |LedgerMap(Squared(ledger))| == |LedgerMap(ledger)|
    ensures (RoundFine(LedgerMap(ledger)[i].1) - Carries(ledger)[i]) * FINE_PER_MINOR == LedgerMap(Squared(ledger))[i].1
  {
    var net, whole := LedgerMap(ledger), LedgerMap(Squared(ledger));
    var u := net[i].0;
    SquaredKeys(ledger);
    assert |Keys(net)| == |net| && |Keys(whole)| == |whole|;
    assert u == Keys(net)[i] == Keys(whole)[i] == whole[i].0;
    EntryOfLedgerMap(ledger, i);
    EntryOfLedgerMap(Squared(ledger), i);
    SquaredCents(ledger, u);
  }

  /**
   * For any ledger with cent shares the reported nets sum to the sum of the carries. They sum to zero exactly when the
   * carries cancel.
   */
  lemma ReportedSumIsCarries(ledger: seq<Entry>)
    requires CentShares(ledger)
    ensures SumValues(GroupBalancesOf(ledger).netByUserId) == Sum(Carries(ledger))
  {
    var net, whole := LedgerMap(ledger), LedgerMap(Squared(ledger));
    SquaredKeys(ledger);
    assert |Keys(net)| == |net| && |Keys(whole)| == |whole|;
    forall i | 0 <= i < |net| ensures (RoundFine(net[i].1) - Carries(ledger)[i]) * FINE_PER_MINOR == whole[i].1 {
      RoundedEntry(ledger, i);
    }
    RoundedSum(net, whole, Carries(ledger));
    SquaredNet(ledger, 0);
    LedgerMapMeans(Squared(ledger), 0);
  }

  /** How far amounts and shares are apart, over the whole ledger. */
  function TotalDrift(ledger: seq<Entry>): nat {
    if ledger == [] then 0
    else
      var e := ledger[|ledger| - 1];
      TotalDrift(ledger[..|ledger| - 1]) + Abs(e.total - SumValues(e.owed))
  }

  function DriftOf(users: seq<UserId>, ledger: seq<Entry>): nat {
    if users == [] then 0 else Abs(PaidDrift(ledger, users[0])) + DriftOf(users[1..], ledger)
  }

  /** One more expense adds to its payer's drift only. */
  lemma {:induction false} DriftOfOneMore(users: seq<UserId>, ledger: seq<Entry>, e: Entry)
    requires Distinct(users)
    ensures DriftOf(users, ledger + [e]) <=
      DriftOf(users, ledger) + if e.paidBy in users then Abs(e.total - SumValues(e.owed)) else 0
  {
    if users != [] {
      assert (ledger + [e])[..|ledger|] == ledger;
      DriftOfOneMore(users[1..], ledger, e);
      assert users[0] !in users[1..];
    }
  }

  lemma {:induction false} DriftOfAtMostTotal(users: seq<UserId>, ledger: seq<Entry>)
    requires Distinct(users)
    ensures DriftOf(users, ledger) <= TotalDrift(ledger)
  {
    if ledger == [] {
      NoDriftOfNothing(users);
    } else {
      var n := |ledger| - 1;
      DriftOfAtMostTotal(users, ledger[..n]);
      DriftOfOneMore(users, ledger[..n], ledger[n]);
      assert ledger[..n] + [ledger[n]] == ledger;
    }
  }

  lemma {:induction false} NoDriftOfNothing(users: seq<UserId>)
    ensures DriftOf(users, []) == 0
  {
    if users != [] {
      NoDriftOfNothing(users[1..]);
    }
  }

  lemma {:induction false} CarriesAtMostDrift(carries: seq<int>, users: seq<UserId>, ledger: seq<Entry>)
    requires CentShares(ledger) && |carries| == |users|
    requires forall i :: 0 <= i < |users| ==> carries[i] == Carry(ledger, users[i])
    ensures 50 * Abs(Sum(carries)) <= DriftOf(users, ledger)
  {
    if users != [] {
      CarriesAtMostDrift(carries[1..], users[1..], ledger);
      CarryIsRoundedDrift(ledger, users[0]);
    }
  }

  /** However many expenses, the reported nets are out of balance by at most a fiftieth of the total drift. */
  lemma ReportedImbalanceBound(ledger: seq<Entry>)
    requires CentShares(ledger)
    ensures 50 * Abs(SumValues(GroupBalancesOf(ledger).netByUserId)) <= TotalDrift(ledger)
  {
    var users := Keys(LedgerMap(ledger));
    LedgerMapMeans(ledger, 0);
    ReportedSumIsCarries(ledger);
    CarriesAtMostDrift(Carries(ledger), users, ledger);
    DriftOfAtMostTotal(users, ledger);
  }

  /**
   * Nets reported for a ledger sum to exactly zero, although amounts carry four decimals and shares two, as long
   * as no payer's drift reaches half a minor unit.
   */
  lemma ReportedNetsBalance(ledger: seq<Entry>)
    requires CentShares(ledger) && SmallDrift(ledger)
    ensures SumValues(GroupBalancesOf(ledger).netByUserId) == 0
  {
    ReportedSumIsCarries(ledger);
    forall i | 0 <= i < |Carries(ledger)| ensures 0 <= Carries(ledger)[i] <= 0 {
      CarryIsRoundedDrift(ledger, LedgerMap(ledger)[i].0);
    }
    SumBounds(Carries(ledger), 0, 0);
  }

  /**
   * Any ledger with cent shares: the settlement leaves open credit and open debt apart by what the reported nets are
   * out of balance, so by at most a fiftieth of the total drift, and clears one side to one minor unit for each user.
   */
  lemma LedgerSettlesWithin(ledger: seq<Entry>)
    requires CentShares(ledger)
    ensures var r := GroupBalancesOf(ledger);
      var nets, ts := AsAmounts(r.netByUserId), r.transfers;
      && Unsettled(nets, ts, false) - Unsettled(nets, ts, true) == SumValues(r.netByUserId)
      && 50 * Abs(SumValues(r.netByUserId)) <= TotalDrift(ledger)
      && Unsettled(nets, ts, OutOfDebtors(nets)) <= CountSide(nets, OutOfDebtors(nets))
  {
    var r := GroupBalancesOf(ledger);
    ReportedNetIsRoundedLedgerNet(ledger, 0);
    AsAmountsMeans(r.netByUserId, 0);
    ReportedImbalanceBound(ledger);
    OpenSides(AsAmounts(r.netByUserId));
  }

  /**
   * End to end: the reported nets balance; each user's net only shrinks toward zero; one side is cleared to at
   * most one minor unit each; open debt equals open credit and is at most one minor unit per user on the larger side.
   */
  lemma LedgerSettles(ledger: seq<Entry>, u: UserId)
    requires CentShares(ledger) && SmallDrift(ledger)
    ensures var r := GroupBalancesOf(ledger);
      var nets, ts, net := AsAmounts(r.netByUserId), r.transfers, RoundFine(LedgerNet(ledger, u));
      && (net < 0 ==> net <= NetAfter(net, ts, u) <= 0)
      && (net > 0 ==> 0 <= NetAfter(net, ts, u) <= net)
      && (net == 0 ==> NetAfter(net, ts, u) == 0)
      && (if OutOfDebtors(nets) then NetAfter(net, ts, u) >= -DUST else NetAfter(net, ts, u) <= DUST)
      && Unsettled(nets, ts, true) == Unsettled(nets, ts, false) <= Max(CountSide(nets, true), CountSide(nets, false))
      && |ts| <= Max(0, |r.netByUserId| - 1)
  {
    var r := GroupBalancesOf(ledger);
    var nets := AsAmounts(r.netByUserId);
    ReportedNetIsRoundedLedgerNet(ledger, u);
    AsAmountsMeans(r.netByUserId, u);
    ReportedNetsBalance(ledger);
    NetsOnlyShrink(nets, u);
    ExhaustedSide(nets, u);
    BalancedSettlement(nets);
    TransferBounds(nets, u, u);
    NonZeroAtMost(nets);
  }

  lemma {:induction false} NonZeroAtMost(nets: Nets)
    ensures NonZero(nets) <= |nets|
  {
    if nets != [] {
      NonZeroAtMost(nets[..|nets| - 1]);
    }
  }

  /** A ledger of cent-aligned expenses whose shares sum to their amounts is the case with no drift at all. */
  lemma {:induction false} ExactLedgerHasNoDrift(ledger: seq<Entry>, u: UserId)
    requires forall i :: 0 <= i < |ledger| ==> ledger[i].total == SumValues(ledger[i].owed)
    ensures PaidDrift(ledger, u) == 0
    ensures SumValues(LedgerMap(ledger)) == 0
  {
    LedgerMapMeans(ledger, u);
    ExactLedgerDrift(ledger, u);
  }

  lemma {:induction false} ExactLedgerDrift(ledger: seq<Entry>, u: UserId)
    requires forall i :: 0 <= i < |ledger| ==> ledger[i].total == SumValues(ledger[i].owed)
    ensures PaidDrift(ledger, u) == 0 && Drift(ledger) == 0
  {
    if ledger != [] {
      ExactLedgerDrift(ledger[..|ledger| - 1], u);
    }
  }

  function Copies(e: Entry, n: nat): seq<Entry> {
    if n == 0 then [] else Copies(e, n - 1) + [e]
  }

  function Pair(u: UserId, a: int, v: UserId, b: int): OMap {
    [(u, a), (v, b)]
  }

  lemma AddPair(net: OMap, u: UserId, a: int, v: UserId, b: int)
    ensures AddAll(net, Pair(u, a, v, b)) == Add(Add(net, u, a), v, b)
  {
    var one: OMap := [(u, a)];
    assert Pair(u, a, v, b)[..1] == one && one[..0] == [];
    assert AddAll(net, one) == Add(net, u, a);
  }

  lemma AddPairToPair(u: UserId, v: UserId, a: int, b: int, x: int, y: int)
    requires u != v
    ensures AddAll([], Pair(u, x, v, y)) == Pair(u, x, v, y)
    ensures AddAll(Pair(u, a, v, b), Pair(u, x, v, y)) == Pair(u, a + x, v, b + y)
  {
    AddPair([], u, x, v, y);
    assert Add([], u, x) == [(u, x)];
    assert Add([(u, x)], v, y) == Pair(u, x, v, y);
    var before := Pair(u, a, v, b);
    AddPair(before, u, x, v, y);
    IndexUnique(before, u, 0);
    assert Add(before, u, x) == Pair(u, a + x, v, b);
    IndexUnique(Pair(u, a + x, v, b), v, 1);
  }

  /** An expense of 1.0001 with one share of 1.00, owed by someone other than the payer. */
  function Odd(payer: UserId, ower: UserId): Entry {
    Entry(payer, 10001, [(ower, 10000)])
  }

  lemma DeltasOfOdd(payer: UserId, ower: UserId)
    requires payer != ower
    ensures NetFromExpense(Odd(payer, ower)) == Pair(ower, -10000, payer, 10001)
  {
    var one: OMap := [(ower, -10000)];
    assert Negated(Odd(payer, ower).owed) == one && one[..0] == [];
    assert AddAll([], one) == one;
  }

  lemma LedgerMapOfOneMore(ledger: seq<Entry>, e: Entry)
    ensures LedgerMap(ledger + [e]) == AddAll(LedgerMap(ledger), NetFromExpense(e))
  {
    assert (ledger + [e])[..|ledger|] == ledger;
  }

  lemma {:induction false} OddCopiesMap(payer: UserId, ower: UserId, n: nat)
    requires payer != ower && n > 0
    ensures LedgerMap(Copies(Odd(payer, ower), n)) == Pair(ower, -10000 * n, payer, 10001 * n)
  {
    LedgerMapOfOneMore(Copies(Odd(payer, ower), n - 1), Odd(payer, ower));
    DeltasOfOdd(payer, ower);
    AddPairToPair(ower, payer, -10000 * (n - 1), 10001 * (n - 1), -10000, 10001);
    if n > 1 {
      OddCopiesMap(payer, ower, n - 1);
    } else {
      assert Copies(Odd(payer, ower), 0) == [];
    }
  }

  lemma RoundedOneMore(net: OMap)
    requires net != []
    ensures SumValues(RoundedNets(net)) == SumValues(RoundedNets(net[..|net| - 1])) + RoundFine(net[|net| - 1].1)
  {
    var front := net[..|net| - 1];
    if RoundFine(net[|net| - 1].1) != 0 {
      assert RoundedNets(net)[..|RoundedNets(net)| - 1] == RoundedNets(front);
    } else {
      assert RoundedNets(net) == RoundedNets(front);
    }
  }

  lemma RoundedPair(u: UserId, a: int, v: UserId, b: int)
    ensures SumValues(RoundedNets(Pair(u, a, v, b))) == RoundFine(a) + RoundFine(b)
  {
    var net := Pair(u, a, v, b);
    RoundedOneMore(net);
    RoundedOneMore(net[..1]);
    assert RoundedNets(net[..1][..0]) == [];
  }

  lemma RoundedOdds(n: nat)
    ensures RoundFine(-10000 * n) + RoundFine(10001 * n) == RoundFine(n)
  {
    assert 10001 * n + 50 == 100 * (100 * n) + (n + 50);
  }

  /**
   * The bound is attained: n expenses of 1.0001 with a share of 1.00 report nets that sum to n units of 10^-4, rounded,
   * so one minor unit at fifty.
   */
  lemma OddCopiesImbalance(payer: UserId, ower: UserId, n: nat)
    requires payer != ower && n > 0
    ensures SumValues(GroupBalancesOf(Copies(Odd(payer, ower), n)).netByUserId) == RoundFine(n)
  {
    OddCopiesMap(payer, ower, n);
    RoundedPair(ower, -10000 * n, payer, 10001 * n);
    RoundedOdds(n);
  }
}
