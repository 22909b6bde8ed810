/**
 * Greedy two-pointer settlement of net balances, with a dust cut-off of one minor unit.
 * Net: positive is owed money overall, negative owes money.
 */
module DebtSimplification {
  import opened Sequences
  import opened Decimals
  import Sorting

  type UserId = nat

  datatype Party = Party(id: UserId, amt: int)

  /** `amount` in minor units. */
  datatype Transfer = Transfer(from: UserId, to: UserId, amount: int)

  /** A net-balance record: one (user, amount) entry per user, amounts in units of 10^-4. */
  type Nets = seq<(UserId, int)>

  ghost predicate OneEntryPerUser(nets: Nets) {
    forall i, j :: 0 <= i < j < |nets| ==> nets[i].0 != nets[j].0
  }

  /** 10^-scale: one minor unit. */
  const DUST := 1

  // ---------- Specification

  function Debtors(nets: Nets): seq<Party> {
    if nets == [] then []
    else
      var last := nets[|nets| - 1];
      var v := RoundFine(last.1);
      Debtors(nets[..|nets| - 1]) + (if v < 0 then [Party(last.0, -v)] else [])
  }

  function Creditors(nets: Nets): seq<Party> {
    if nets == [] then []
    else
      var last := nets[|nets| - 1];
      var v := RoundFine(last.1);
      Creditors(nets[..|nets| - 1]) + (if v > 0 then [Party(last.0, v)] else [])
  }

  function LargestFirst(): (Party, Party) -> bool {
    (a: Party, b: Party) => a.amt >= b.amt
  }

  /** What is left of a queue after its head has been reduced to `left`. */
  function Advance(queue: seq<Party>, left: int): (r: seq<Party>)
    requires queue != []
    ensures |r| <= |queue|
  {
    if left <= DUST then queue[1..] else [queue[0].(amt := left)] + queue[1..]
  }

  datatype Step = Step(sent: Option<Transfer>, ds: seq<Party>, cs: seq<Party>)

  /** One round of the two-pointer loop on the queues that are left. */
  function NextStep(ds: seq<Party>, cs: seq<Party>): (s: Step)
    requires ds != [] && cs != []
    ensures |s.ds| + |s.cs| < |ds| + |cs|
  {
    if ds[0].amt <= DUST then Step(None, ds[1..], cs)
    else if cs[0].amt <= DUST then Step(None, ds, cs[1..])
    else
      var pay := Min(ds[0].amt, cs[0].amt);
      Step(Some(Transfer(ds[0].id, cs[0].id, pay)), Advance(ds, ds[0].amt - pay), Advance(cs, cs[0].amt - pay))
  }

  function Settle(ds: seq<Party>, cs: seq<Party>): seq<Transfer>
    decreases |ds| + |cs|
  {
    if ds == [] || cs == [] then []
    else
      var s := NextStep(ds, cs);
      var rest := Settle(s.ds, s.cs);
      if s.sent.Some? then [s.sent.value] + rest else rest
  }

  function Simplify(nets: Nets): seq<Transfer> {
    Settle(Sorting.Sort(LargestFirst(), Debtors(nets)), Sorting.Sort(LargestFirst(), Creditors(nets)))
  }

  // ---------- The loops

  method SimplifyDebts(nets: Nets) returns (out: seq<Transfer>)
    ensures out == Simplify(nets)
  {
    var debtors: seq<Party>, creditors: seq<Party> := [], [];
    for k := 0 to |nets|
      invariant debtors == Debtors(nets[..k]) && creditors == Creditors(nets[..k])
    {
      var v := RoundFine(nets[k].1);
      assert nets[..k + 1][..k] == nets[..k];
      if v == 0 {
        continue;
      }
      if v < 0 {
        debtors := debtors + [Party(nets[k].0, -v)];
      } else {
        creditors := creditors + [Party(nets[k].0, v)];
      }
    }
    assert nets[..|nets|] == nets;
    debtors := Sorting.Sort(LargestFirst(), debtors);
    creditors := Sorting.Sort(LargestFirst(), creditors);
    out := MatchGreedily(debtors, creditors);
  }

  lemma AdvanceInPlace(queue: seq<Party>, i: nat, left: int)
    requires i < |queue|
    ensures queue[i..][0] == queue[i] && queue[i + 1..] == queue[i..][1..]
    ensures var updated := queue[i := queue[i].(amt := left)];
            Advance(queue[i..], left) == if left <= DUST then updated[i + 1..] else updated[i..]
  {
    var updated := queue[i := queue[i].(amt := left)];
    assert updated[i + 1..] == queue[i + 1..];
    assert updated[i..] == [updated[i]] + updated[i + 1..];
  }

  /** Reduces the party at `i` by `pay` in place and steps past it when only dust is left. */
  method TakeFrom(parties: seq<Party>, i: nat, pay: int, ghost queue: seq<Party>)
    returns (parties': seq<Party>, i': nat, ghost queue': seq<Party>)
    requires i < |parties| && queue == parties[i..]
    ensures parties' == parties[i := parties[i].(amt := parties[i].amt - pay)]
    ensures i' == if parties[i].amt - pay <= DUST then i + 1 else i
    ensures queue' == Advance(queue, queue[0].amt - pay) && queue' == parties'[i'..]
  {
    AdvanceInPlace(parties, i, parties[i].amt - pay);
    parties' := parties[i := parties[i].(amt := parties[i].amt - pay)];
    i' := i;
    if parties'[i].amt <= DUST {
      i' := i + 1;
    }
    queue' := Advance(queue, parties[i].amt - pay);
  }

  method StepPast(parties: seq<Party>, i: nat, ghost queue: seq<Party>) returns (i': nat, ghost queue': seq<Party>)
    requires i < |parties| && queue == parties[i..]
    ensures i' == i + 1 && queue' == queue[1..] && queue' == parties[i'..]
  {
    i', queue' := i + 1, queue[1..];
  }

  /** `out` so far, followed by the settlement of the queues ahead, is the whole result. */
  ghost predicate Remaining(goal: seq<Transfer>, out: seq<Transfer>, ds: seq<Party>, cs: seq<Party>) {
    goal == out + Settle(ds, cs)
  }

  lemma RemainingAfterSkip(goal: seq<Transfer>, out: seq<Transfer>, ds: seq<Party>, cs: seq<Party>)
    requires ds != [] && cs != [] && Remaining(goal, out, ds, cs)
    ensures ds[0].amt <= DUST ==> Remaining(goal, out, ds[1..], cs)
    ensures ds[0].amt > DUST && cs[0].amt <= DUST ==> Remaining(goal, out, ds, cs[1..])
  {
  }

  lemma RemainingAfterPay(goal: seq<Transfer>, out: seq<Transfer>, ds: seq<Party>, cs: seq<Party>, pay: int)
    requires ds != [] && cs != [] && Remaining(goal, out, ds, cs)
    requires ds[0].amt > DUST && cs[0].amt > DUST && pay == Min(ds[0].amt, cs[0].amt)
    ensures Remaining(goal, out + [Transfer(ds[0].id, cs[0].id, pay)],
                      Advance(ds, ds[0].amt - pay), Advance(cs, cs[0].amt - pay))
  {
  }

  method MatchGreedily(ds: seq<Party>, cs: seq<Party>) returns (out: seq<Transfer>)
    ensures out == Settle(ds, cs)
  {
    var debtors, creditors := ds, cs;
    out := [];
    var i, j := 0, 0;
    ghost var goal, dq, cq := Settle(ds, cs), ds, cs; // dq, cq: the queues still ahead of the pointers
    while i < |debtors| && j < |creditors|
      invariant 0 <= i <= |debtors| && 0 <= j <= |creditors|
      invariant dq == debtors[i..] && cq == creditors[j..]
      invariant Remaining(goal, out, dq, cq)
      decreases |debtors| - i + |creditors| - j
    {
      var d, c := debtors[i], creditors[j];
      if d.amt <= DUST {
        RemainingAfterSkip(goal, out, dq, cq);
        i, dq := StepPast(debtors, i, dq);
        continue;
      }
      if c.amt <= DUST {
        RemainingAfterSkip(goal, out, dq, cq);
        j, cq := StepPast(creditors, j, cq);
        continue;
      }
      var pay := Min(d.amt, c.amt);
      RemainingAfterPay(goal, out, dq, cq, pay);
      if pay > DUST {
        out := out + [Transfer(d.id, c.id, pay)];
      }
      debtors, i, dq := TakeFrom(debtors, i, pay, dq);
      creditors, j, cq := TakeFrom(creditors, j, pay, cq);
    }
  }

  // ---------- Accounting

  function Paid(ts: seq<Transfer>, u: UserId): int {
    if ts == [] then 0 else (if ts[0].from == u then ts[0].amount else 0) + Paid(ts[1..], u)
  }

  function Received(ts: seq<Transfer>, u: UserId): int {
    if ts == [] then 0 else (if ts[0].to == u then ts[0].amount else 0) + Received(ts[1..], u)
  }

  function TotalMoved(ts: seq<Transfer>): int {
    if ts == [] then 0 else ts[0].amount + TotalMoved(ts[1..])
  }

  /** A user's net, in minor units, once the transfers are made. */
  function NetAfter(net: int, ts: seq<Transfer>, u: UserId): int {
    net + Paid(ts, u) - Received(ts, u)
  }

  function TimesPaired(ts: seq<Transfer>, u: UserId, v: UserId): nat {
    if ts == [] then 0 else (if ts[0].from == u && ts[0].to == v then 1 else 0) + TimesPaired(ts[1..], u, v)
  }

  /** What the queue says user u owes (or is owed). */
  function Balance(queue: seq<Party>, u: UserId): int {
    if queue == [] then 0 else (if queue[0].id == u then queue[0].amt else 0) + Balance(queue[1..], u)
  }

  /** Positive amounts, one party per user. */
  ghost predicate Queue(queue: seq<Party>) {
    queue == [] || (queue[0].amt > 0 && Balance(queue[1..], queue[0].id) == 0 && Queue(queue[1..]))
  }

  lemma {:induction false} BalanceNonNegative(queue: seq<Party>, u: UserId)
    requires Queue(queue)
    ensures Balance(queue, u) >= 0
  {
    if queue != [] {
      BalanceNonNegative(queue[1..], u);
    }
  }

  lemma AdvanceFacts(queue: seq<Party>, left: int, u: UserId)
    requires queue != [] && Queue(queue)
    ensures Queue(Advance(queue, left))
    ensures Balance(Advance(queue, left), u) ==
      if u == queue[0].id then (if left <= DUST then 0 else left) else Balance(queue, u)
  {
    var rest := queue[1..];
    var head := queue[0].(amt := left);
    assert ([head] + rest)[1..] == rest;
  }

  function SentFrom(s: Step, u: UserId): int {
    if s.sent.Some? && s.sent.value.from == u then s.sent.value.amount else 0
  }

  function SentTo(s: Step, u: UserId): int {
    if s.sent.Some? && s.sent.value.to == u then s.sent.value.amount else 0
  }

  /** `before`, less what was sent, is what the queue still says, except that dust may have been dropped. */
  ghost predicate StepsDown(before: int, sent: int, after: int) {
    0 <= sent && 0 <= after && (after + sent == before || (after == 0 && 0 <= before - sent <= DUST))
  }

  lemma StepFacts(ds: seq<Party>, cs: seq<Party>, u: UserId)
    requires ds != [] && cs != [] && Queue(ds) && Queue(cs)
    ensures var s := NextStep(ds, cs);
      && Queue(s.ds) && StepsDown(Balance(ds, u), SentFrom(s, u), Balance(s.ds, u))
      && Queue(s.cs) && StepsDown(Balance(cs, u), SentTo(s, u), Balance(s.cs, u))
  {
    var s := NextStep(ds, cs);
    BalanceNonNegative(ds, u);
    BalanceNonNegative(cs, u);
    if s.sent.Some? {
      AdvanceFacts(ds, ds[0].amt - s.sent.value.amount, u);
      AdvanceFacts(cs, cs[0].amt - s.sent.value.amount, u);
    }
    BalanceNonNegative(s.ds, u);
    BalanceNonNegative(s.cs, u);
  }

  // ---------- What the settlement guarantees

  /** No one pays more than the debt or receives more than the credit. */
  lemma {:induction false} SettleWithinBalance(ds: seq<Party>, cs: seq<Party>, u: UserId)
    requires Queue(ds) && Queue(cs)
    ensures 0 <= Paid(Settle(ds, cs), u) <= Balance(ds, u)
    ensures 0 <= Received(Settle(ds, cs), u) <= Balance(cs, u)
    decreases |ds| + |cs|
  {
    if ds == [] || cs == [] {
      BalanceNonNegative(ds, u);
      BalanceNonNegative(cs, u);
    } else {
      var s := NextStep(ds, cs);
      StepFacts(ds, cs, u);
      SettleWithinBalance(s.ds, s.cs, u);
    }
  }

  /** Which side the loop runs out of first. */
  function DebtorsExhausted(ds: seq<Party>, cs: seq<Party>): bool
    decreases |ds| + |cs|
  {
    if ds == [] then true
    else if cs == [] then false
    else
      var s := NextStep(ds, cs);
      DebtorsExhausted(s.ds, s.cs)
  }

  /** Everyone on the exhausted side is left with at most one minor unit. */
  lemma {:induction false} SettleExhaustsASide(ds: seq<Party>, cs: seq<Party>, u: UserId)
    requires Queue(ds) && Queue(cs)
    ensures DebtorsExhausted(ds, cs) ==> Balance(ds, u) - Paid(Settle(ds, cs), u) <= DUST
    ensures !DebtorsExhausted(ds, cs) ==> Balance(cs, u) - Received(Settle(ds, cs), u) <= DUST
    decreases |ds| + |cs|
  {
    if ds != [] && cs != [] {
      var s := NextStep(ds, cs);
      StepFacts(ds, cs, u);
      SettleExhaustsASide(s.ds, s.cs, u);
      SettleWithinBalance(s.ds, s.cs, u);
    }
  }

  /** At most n - 1 transfers among n parties. */
  lemma {:induction false} SettleCount(ds: seq<Party>, cs: seq<Party>)
    ensures |Settle(ds, cs)| <= if ds == [] || cs == [] then 0 else |ds| + |cs| - 1
    decreases |ds| + |cs|
  {
    if ds != [] && cs != [] {
      var s := NextStep(ds, cs);
      SettleCount(s.ds, s.cs);
    }
  }

  /** Every transfer exceeds one minor unit. */
  lemma {:induction false} SettleAmounts(ds: seq<Party>, cs: seq<Party>)
    ensures forall k :: 0 <= k < |Settle(ds, cs)| ==> Settle(ds, cs)[k].amount > DUST
    decreases |ds| + |cs|
  {
    if ds != [] && cs != [] {
      var s := NextStep(ds, cs);
      SettleAmounts(s.ds, s.cs);
    }
  }

  /** A transfer from u to v empties one of their two entries. */
  lemma PairedStep(ds: seq<Party>, cs: seq<Party>, u: UserId, v: UserId)
    requires ds != [] && cs != [] && Queue(ds) && Queue(cs)
    ensures var s := NextStep(ds, cs);
      s.sent.Some? && s.sent.value.from == u && s.sent.value.to == v ==>
        Balance(s.ds, u) == 0 || Balance(s.cs, v) == 0
  {
    var s := NextStep(ds, cs);
    if s.sent.Some? {
      AdvanceFacts(ds, ds[0].amt - s.sent.value.amount, u);
      AdvanceFacts(cs, cs[0].amt - s.sent.value.amount, v);
    }
  }

  /** The same (from, to) pair never appears twice, and only a debtor pays a creditor. */
  lemma {:induction false} SettleNeverRepeatsAPair(ds: seq<Party>, cs: seq<Party>, u: UserId, v: UserId)
    requires Queue(ds) && Queue(cs)
    ensures TimesPaired(Settle(ds, cs), u, v) <= 1
    ensures Balance(ds, u) == 0 || Balance(cs, v) == 0 ==> TimesPaired(Settle(ds, cs), u, v) == 0
    decreases |ds| + |cs|
  {
    if ds != [] && cs != [] {
      var s := NextStep(ds, cs);
      StepFacts(ds, cs, u);
      StepFacts(ds, cs, v);
      PairedStep(ds, cs, u, v);
      SettleNeverRepeatsAPair(s.ds, s.cs, u, v);
    }
  }

  // ---------- From net balances to the two queues

  /** User u's net rounded to minor units; zero for a user without an entry. */
  function MinorNet(nets: Nets, u: UserId): int {
    if nets == [] then 0
    else
      var last := nets[|nets| - 1];
      MinorNet(nets[..|nets| - 1], u) + (if last.0 == u then RoundFine(last.1) else 0)
  }

  /** Number of users whose rounded net is not zero. */
  function NonZero(nets: Nets): nat {
    if nets == [] then 0
    else NonZero(nets[..|nets| - 1]) + (if RoundFine(nets[|nets| - 1].1) != 0 then 1 else 0)
  }

  lemma {:induction false} MinorNetAbsent(nets: Nets, u: UserId)
    requires forall i :: 0 <= i < |nets| ==> nets[i].0 != u
    ensures MinorNet(nets, u) == 0
  {
    if nets != [] {
      MinorNetAbsent(nets[..|nets| - 1], u);
    }
  }

  lemma {:induction false} MinorNetAt(nets: Nets, k: nat)
    requires OneEntryPerUser(nets) && k < |nets|
    ensures MinorNet(nets, nets[k].0) == RoundFine(nets[k].1)
  {
    var n := |nets| - 1;
    if k == n {
      MinorNetAbsent(nets[..n], nets[k].0);
    } else {
      MinorNetAt(nets[..n], k);
    }
  }

  lemma {:induction false} QueueAppend(queue: seq<Party>, p: Party, u: UserId)
    ensures Balance(queue + [p], u) == Balance(queue, u) + (if p.id == u then p.amt else 0)
    ensures Queue(queue) && p.amt > 0 && Balance(queue, p.id) == 0 ==> Queue(queue + [p])
  {
    if queue != [] {
      assert (queue + [p])[1..] == queue[1..] + [p];
      QueueAppend(queue[1..], p, u);
      QueueAppend(queue[1..], p, queue[0].id);
      if Queue(queue) { BalanceNonNegative(queue[1..], p.id); }
    }
  }

  /** The debtors are the users with a negative rounded net. */
  lemma {:induction false} DebtorsOfNets(nets: Nets, u: UserId)
    requires OneEntryPerUser(nets)
    ensures Queue(Debtors(nets)) && Balance(Debtors(nets), u) == Max(0, -MinorNet(nets, u))
  {
    if nets != [] {
      var n := |nets| - 1;
      var front, last := nets[..n], nets[n];
      var v := RoundFine(last.1);
      DebtorsOfNets(front, u);
      DebtorsOfNets(front, last.0);
      MinorNetAbsent(front, last.0);
      if v < 0 {
        QueueAppend(Debtors(front), Party(last.0, -v), u);
      } else {
        assert Debtors(nets) == Debtors(front);
      }
    }
  }

  /** The creditors are the users with a positive rounded net. */
  lemma {:induction false} CreditorsOfNets(nets: Nets, u: UserId)
    requires OneEntryPerUser(nets)
    ensures Queue(Creditors(nets)) && Balance(Creditors(nets), u) == Max(0, MinorNet(nets, u))
  {
    if nets != [] {
      var n := |nets| - 1;
      var front, last := nets[..n], nets[n];
      var v := RoundFine(last.1);
      CreditorsOfNets(front, u);
      CreditorsOfNets(front, last.0);
      MinorNetAbsent(front, last.0);
      if v > 0 {
        QueueAppend(Creditors(front), Party(last.0, v), u);
      } else {
        assert Creditors(nets) == Creditors(front);
      }
    }
  }

  lemma {:induction false} SidesCount(nets: Nets)
    ensures |Debtors(nets)| + |Creditors(nets)| == NonZero(nets)
  {
    if nets != [] {
      SidesCount(nets[..|nets| - 1]);
    }
  }

  lemma {:induction false} InsertKeepsQueue(p: Party, queue: seq<Party>, u: UserId)
    requires Queue([p] + queue)
    ensures Queue(Sorting.Insert(LargestFirst(), p, queue))
    ensures Balance(Sorting.Insert(LargestFirst(), p, queue), u) == (if p.id == u then p.amt else 0) + Balance(queue, u)
  {
    assert ([p] + queue)[1..] == queue;
    if queue != [] && !LargestFirst()(p, queue[0]) {
      var rest := queue[1..];
      BalanceNonNegative(rest, p.id);
      assert ([p] + rest)[1..] == rest;
      InsertKeepsQueue(p, rest, u);
      InsertKeepsQueue(p, rest, queue[0].id);
      var t := Sorting.Insert(LargestFirst(), p, rest);
      assert ([queue[0]] + t)[1..] == t;
    }
  }

  /** Sorting reorders the parties and changes no one's balance. */
  lemma {:induction false} SortKeepsQueue(queue: seq<Party>, u: UserId)
    requires Queue(queue)
    ensures Queue(Sorting.Sort(LargestFirst(), queue))
    ensures Balance(Sorting.Sort(LargestFirst(), queue), u) == Balance(queue, u)
  {
    if queue != [] {
      var t := Sorting.Sort(LargestFirst(), queue[1..]);
      SortKeepsQueue(queue[1..], u);
      SortKeepsQueue(queue[1..], queue[0].id);
      assert ([queue[0]] + t)[1..] == t;
      InsertKeepsQueue(queue[0], t, u);
    }
  }

  lemma QueuesOf(nets: Nets, u: UserId) returns (ds: seq<Party>, cs: seq<Party>)
    requires OneEntryPerUser(nets)
    ensures Simplify(nets) == Settle(ds, cs)
    ensures ds == Sorting.Sort(LargestFirst(), Debtors(nets)) && cs == Sorting.Sort(LargestFirst(), Creditors(nets))
    ensures Queue(ds) && Balance(ds, u) == Max(0, -MinorNet(nets, u))
    ensures Queue(cs) && Balance(cs, u) == Max(0, MinorNet(nets, u))
    ensures |ds| + |cs| == NonZero(nets)
  {
    ds, cs := Sorting.Sort(LargestFirst(), Debtors(nets)), Sorting.Sort(LargestFirst(), Creditors(nets));
    DebtorsOfNets(nets, u);
    CreditorsOfNets(nets, u);
    SidesCount(nets);
    SortKeepsQueue(Debtors(nets), u);
    SortKeepsQueue(Creditors(nets), u);
    Sorting.SortIsPermutation(LargestFirst(), Debtors(nets));
    Sorting.SortIsPermutation(LargestFirst(), Creditors(nets));
  }

  // ---------- Guarantees for any nets, balanced or not

  /** Each user's net moves toward zero and never past it: debtors only pay, creditors only receive. */
  lemma NetsOnlyShrink(nets: Nets, u: UserId)
    requires OneEntryPerUser(nets)
    ensures var ts, net := Simplify(nets), MinorNet(nets, u);
      && Paid(ts, u) >= 0 && Received(ts, u) >= 0
      && (net < 0 ==> Received(ts, u) == 0 && net <= NetAfter(net, ts, u) <= 0)
      && (net > 0 ==> Paid(ts, u) == 0 && 0 <= NetAfter(net, ts, u) <= net)
      && (net == 0 ==> Paid(ts, u) == 0 && Received(ts, u) == 0)
  {
    var ds, cs := QueuesOf(nets, u);
    SettleWithinBalance(ds, cs, u);
  }

  /** For n users with a non-zero net: at most n - 1 transfers, each above one minor unit, no pair twice. */
  lemma TransferBounds(nets: Nets, u: UserId, v: UserId)
    requires OneEntryPerUser(nets)
    ensures |Simplify(nets)| <= Max(0, NonZero(nets) - 1)
    ensures forall k :: 0 <= k < |Simplify(nets)| ==> Simplify(nets)[k].amount > DUST
    ensures TimesPaired(Simplify(nets), u, v) <= 1
    ensures TimesPaired(Simplify(nets), u, v) == 1 ==> MinorNet(nets, u) < 0 < MinorNet(nets, v)
  {
    var ds, cs := QueuesOf(nets, u);
    var ds', cs' := QueuesOf(nets, v);
    SettleCount(ds, cs);
    SettleAmounts(ds, cs);
    SettleNeverRepeatsAPair(ds, cs, u, v);
  }

  /** Whether the settlement of these nets runs out of debtors first. */
  function OutOfDebtors(nets: Nets): bool {
    DebtorsExhausted(Sorting.Sort(LargestFirst(), Debtors(nets)), Sorting.Sort(LargestFirst(), Creditors(nets)))
  }

  /** Everyone on the exhausted side keeps at most one minor unit. */
  lemma ExhaustedSide(nets: Nets, u: UserId)
    requires OneEntryPerUser(nets)
    ensures OutOfDebtors(nets) ==> NetAfter(MinorNet(nets, u), Simplify(nets), u) >= -DUST
    ensures !OutOfDebtors(nets) ==> NetAfter(MinorNet(nets, u), Simplify(nets), u) <= DUST
  {
    var ds, cs := QueuesOf(nets, u);
    SettleExhaustsASide(ds, cs, u);
    NetsOnlyShrink(nets, u);
  }

  lemma {:induction false} BalanceAtMost(queue: seq<Party>, u: UserId, top: int)
    requires Queue(queue) && top >= 0 && forall i :: 0 <= i < |queue| ==> queue[i].amt <= top
    ensures Balance(queue, u) <= top
  {
    if queue != [] {
      BalanceAtMost(queue[1..], u, top);
    }
  }

  lemma {:induction false} OnlyDust(ds: seq<Party>, cs: seq<Party>)
    requires (forall i :: 0 <= i < |ds| ==> ds[i].amt <= DUST) || (forall i :: 0 <= i < |cs| ==> cs[i].amt <= DUST)
    ensures Settle(ds, cs) == []
    decreases |ds| + |cs|
  {
    if ds != [] && cs != [] {
      var s := NextStep(ds, cs);
      OnlyDust(s.ds, s.cs);
    }
  }

  lemma SortedHeadIsLargest(ps: seq<Party>)
    ensures var s := Sorting.Sort(LargestFirst(), ps);
            forall i :: 0 <= i < |s| ==> s[i].amt <= s[0].amt
  {
    Sorting.SortSorts(LargestFirst(), ps);
    var s := Sorting.Sort(LargestFirst(), ps);
    forall i | 0 <= i < |s| ensures s[i].amt <= s[0].amt {
      if i > 0 { assert LargestFirst()(s[0], s[i]); }
    }
  }

  /** When anything is settled, the head of each sorted queue carries that side's largest balance. */
  lemma HeadsOf(nets: Nets, u: UserId) returns (ds: seq<Party>, cs: seq<Party>)
    requires OneEntryPerUser(nets) && Simplify(nets) != []
    ensures ds != [] && cs != [] && Simplify(nets) == Settle(ds, cs)
    ensures ds[0].amt > DUST && cs[0].amt > DUST
    ensures MinorNet(nets, ds[0].id) == -ds[0].amt <= MinorNet(nets, u) <= cs[0].amt == MinorNet(nets, cs[0].id)
  {
    ds, cs := QueuesOf(nets, u);
    SortedHeadIsLargest(Debtors(nets));
    SortedHeadIsLargest(Creditors(nets));
    if ds == [] || cs == [] || ds[0].amt <= DUST || cs[0].amt <= DUST {
      OnlyDust(ds, cs);
    }
    BalanceAtMost(ds, u, ds[0].amt);
    BalanceAtMost(cs, u, cs[0].amt);
    var ds1, cs1 := QueuesOf(nets, ds[0].id);
    var ds2, cs2 := QueuesOf(nets, cs[0].id);
  }

  /** The first transfer runs from the largest debt to the largest credit and clears the smaller of the two. */
  lemma LargestPaysLargestFirst(nets: Nets, u: UserId)
    requires OneEntryPerUser(nets) && Simplify(nets) != []
    ensures var t := Simplify(nets)[0];
      && MinorNet(nets, t.from) <= MinorNet(nets, u) <= MinorNet(nets, t.to)
      && t.amount == Min(-MinorNet(nets, t.from), MinorNet(nets, t.to))
  {
    var ds, cs := HeadsOf(nets, u);
    assert Simplify(nets)[0] == NextStep(ds, cs).sent.value;
  }

  // ---------- Balanced nets

  function SumMinor(nets: Nets): int {
    if nets == [] then 0 else SumMinor(nets[..|nets| - 1]) + RoundFine(nets[|nets| - 1].1)
  }

  /** Number of users with a net of the given sign. */
  function CountSide(nets: Nets, debtSide: bool): nat {
    if nets == [] then 0
    else
      var v := RoundFine(nets[|nets| - 1].1);
      CountSide(nets[..|nets| - 1], debtSide) + (if (if debtSide then v < 0 else v > 0) then 1 else 0)
  }

  /** Debt (or credit) still open after the transfers, summed over the users on that side. */
  function Unsettled(nets: Nets, ts: seq<Transfer>, debtSide: bool): int {
    if nets == [] then 0
    else
      var u, v := nets[|nets| - 1].0, RoundFine(nets[|nets| - 1].1);
      Unsettled(nets[..|nets| - 1], ts, debtSide) +
      (if debtSide && v < 0 then -NetAfter(v, ts, u) else if !debtSide && v > 0 then NetAfter(v, ts, u) else 0)
  }

  lemma {:induction false} UnsettledNothing(nets: Nets)
    ensures Unsettled(nets, [], false) - Unsettled(nets, [], true) == SumMinor(nets)
  {
    if nets != [] {
      UnsettledNothing(nets[..|nets| - 1]);
    }
  }

  /** One more transfer lowers the side it touches by its amount, when its user is on that side. */
  lemma {:induction false} UnsettledStep(nets: Nets, ts: seq<Transfer>, debtSide: bool)
    requires OneEntryPerUser(nets) && ts != []
    requires MinorNet(nets, ts[0].from) <= 0 <= MinorNet(nets, ts[0].to)
    ensures Unsettled(nets, ts, debtSide) == Unsettled(nets, ts[1..], debtSide) -
      (if debtSide && MinorNet(nets, ts[0].from) < 0 then ts[0].amount
       else if !debtSide && MinorNet(nets, ts[0].to) > 0 then ts[0].amount else 0)
  {
    if nets != [] {
      var n := |nets| - 1;
      var front, u := nets[..n], nets[n].0;
      MinorNetAt(nets, n);
      MinorNetAbsent(front, u);
      UnsettledStep(front, ts, debtSide);
    }
  }

  lemma {:induction false} PairedAt(ts: seq<Transfer>, k: nat)
    requires k < |ts|
    ensures TimesPaired(ts, ts[k].from, ts[k].to) >= 1
  {
    if k > 0 {
      PairedAt(ts[1..], k - 1);
    }
  }

  /** Every transfer lowers the open debt and the open credit by the same amount. */
  lemma {:induction false} SidesMoveTogether(nets: Nets, ts: seq<Transfer>)
    requires OneEntryPerUser(nets)
    requires forall k :: 0 <= k < |ts| ==> MinorNet(nets, ts[k].from) < 0 < MinorNet(nets, ts[k].to)
    ensures Unsettled(nets, ts, false) - Unsettled(nets, ts, true) == SumMinor(nets)
  {
    if ts == [] {
      UnsettledNothing(nets);
    } else {
      SidesMoveTogether(nets, ts[1..]);
      UnsettledStep(nets, ts, true);
      UnsettledStep(nets, ts, false);
    }
  }

  lemma {:induction false} UnsettledAtMostCount(all: Nets, nets: Nets, ts: seq<Transfer>, debtSide: bool)
    requires OneEntryPerUser(all) && nets <= all
    requires forall u :: (if debtSide then NetAfter(MinorNet(all, u), ts, u) >= -DUST
                          else NetAfter(MinorNet(all, u), ts, u) <= DUST)
    ensures Unsettled(nets, ts, debtSide) <= CountSide(nets, debtSide)
  {
    if nets != [] {
      var n := |nets| - 1;
      MinorNetAt(all, n);
      UnsettledAtMostCount(all, nets[..n], ts, debtSide);
    }
  }

  /**
   * Any nets: open credit exceeds open debt by the sum of the nets, and the side the settlement exhausts keeps at most
   * one minor unit for each of its users.
   */
  lemma OpenSides(nets: Nets)
    requires OneEntryPerUser(nets)
    ensures var ts, side := Simplify(nets), OutOfDebtors(nets);
      && Unsettled(nets, ts, false) - Unsettled(nets, ts, true) == SumMinor(nets)
      && Unsettled(nets, ts, side) <= CountSide(nets, side)
  {
    var ts := Simplify(nets);
    TransfersCrossOver(nets);
    SidesMoveTogether(nets, ts);
    forall u ensures if OutOfDebtors(nets) then NetAfter(MinorNet(nets, u), ts, u) >= -DUST
                     else NetAfter(MinorNet(nets, u), ts, u) <= DUST {
      ExhaustedSide(nets, u);
    }
    UnsettledAtMostCount(nets, nets, ts, OutOfDebtors(nets));
  }

  /**
   * Nets that sum to zero: the transfers leave as much open debt as open credit, at most one minor unit
   * for each user on the larger side.
   */
  lemma BalancedSettlement(nets: Nets)
    requires OneEntryPerUser(nets) && SumMinor(nets) == 0
    ensures Unsettled(nets, Simplify(nets), true) == Unsettled(nets, Simplify(nets), false)
    ensures Unsettled(nets, Simplify(nets), true) <= Max(CountSide(nets, true), CountSide(nets, false))
  {
    OpenSides(nets);
  }

  // ---------- When everything is settled

  lemma {:induction false} PaidZeroOrMore(ts: seq<Transfer>, u: UserId)
    requires forall k :: 0 <= k < |ts| ==> ts[k].amount > DUST
    ensures Paid(ts, u) == 0 || Paid(ts, u) > DUST
    ensures Received(ts, u) == 0 || Received(ts, u) > DUST
  {
    if ts != [] {
      PaidZeroOrMore(ts[1..], u);
    }
  }

  /** The dust cut-off at work: a user whose net is one minor unit neither pays nor receives, for any other nets. */
  lemma OneUnitIsNeverSettled(nets: Nets, u: UserId)
    requires OneEntryPerUser(nets) && Abs(MinorNet(nets, u)) == 1
    ensures Paid(Simplify(nets), u) == 0 && Received(Simplify(nets), u) == 0
  {
    NetsOnlyShrink(nets, u);
    TransferBounds(nets, u, u);
    PaidZeroOrMore(Simplify(nets), u);
  }

  /** Sum of the first k amounts of a queue. */
  function Prefix(queue: seq<Party>, k: nat): int
    requires k <= |queue|
  {
    if k == 0 then 0 else queue[0].amt + Prefix(queue[1..], k - 1)
  }

  function Amt(queue: seq<Party>): int {
    Prefix(queue, |queue|)
  }

  ghost predicate Positive(queue: seq<Party>) {
    forall i :: 0 <= i < |queue| ==> queue[i].amt > 0
  }

  /** No running total of the one side comes within one unit of a running total of the other without meeting it. */
  ghost predicate NoGap(ds: seq<Party>, cs: seq<Party>) {
    forall i: nat, j: nat :: i <= |ds| && j <= |cs| ==> Apart(Prefix(ds, i), Prefix(cs, j))
  }

  predicate Apart(a: int, b: int) {
    a - b != DUST && b - a != DUST
  }

  ghost predicate NoDust(queue: seq<Party>) {
    forall i :: 0 <= i < |queue| ==> queue[i].amt != DUST
  }

  lemma {:induction false} PrefixPositive(queue: seq<Party>, k: nat)
    requires Positive(queue) && k <= |queue|
    ensures Prefix(queue, k) >= 0 && (k > 0 ==> Prefix(queue, k) >= queue[0].amt)
  {
    if k > 0 {
      PrefixPositive(queue[1..], k - 1);
    }
  }

  /** Lowering a head by `pay` lowers every running total past it; dropping an emptied head shifts them as well. */
  lemma PrefixOfAdvance(queue: seq<Party>, pay: int, k: nat)
    requires queue != [] && k < |queue|
    ensures Prefix(queue, k + 1) == queue[0].amt + Prefix(queue[1..], k)
    ensures var rest := [queue[0].(amt := queue[0].amt - pay)] + queue[1..];
      Prefix(rest, k + 1) == Prefix(queue, k + 1) - pay
  {
    var rest := [queue[0].(amt := queue[0].amt - pay)] + queue[1..];
    assert rest[1..] == queue[1..];
  }

  lemma {:induction false} MovedAtMost(ds: seq<Party>, cs: seq<Party>)
    requires Positive(ds) && Positive(cs)
    ensures TotalMoved(Settle(ds, cs)) <= Amt(ds) && TotalMoved(Settle(ds, cs)) <= Amt(cs)
    decreases |ds| + |cs|
  {
    PrefixPositive(ds, |ds|);
    PrefixPositive(cs, |cs|);
    if ds != [] && cs != [] {
      var s := NextStep(ds, cs);
      StepAmounts(ds, cs);
      MovedAtMost(s.ds, s.cs);
    }
  }

  /** A round takes what it sends from both sides, and drops at most dust besides. */
  lemma StepAmounts(ds: seq<Party>, cs: seq<Party>)
    requires ds != [] && cs != [] && Positive(ds) && Positive(cs)
    ensures var s := NextStep(ds, cs);
            var sent := if s.sent.Some? then s.sent.value.amount else 0;
      && Positive(s.ds) && Amt(s.ds) + sent <= Amt(ds)
      && Positive(s.cs) && Amt(s.cs) + sent <= Amt(cs)
  {
    var s := NextStep(ds, cs);
    if s.sent.Some? {
      PrefixOfAdvance(ds, s.sent.value.amount, |ds| - 1);
      PrefixOfAdvance(cs, s.sent.value.amount, |cs| - 1);
    }
  }

  ghost predicate Clean(ds: seq<Party>, cs: seq<Party>) {
    NoGap(ds, cs) && NoDust(ds) && NoDust(cs)
  }

  lemma CleanIsSymmetric(ds: seq<Party>, cs: seq<Party>)
    ensures Clean(ds, cs) <==> Clean(cs, ds)
  {
  }

  lemma PrefixNotDust(queue: seq<Party>, k: nat)
    requires Positive(queue) && NoDust(queue) && k <= |queue|
    ensures Prefix(queue, k) != DUST
  {
    PrefixPositive(queue, k);
  }

  /** Running totals on either side of a payment of the smaller head: all lower by it. */
  lemma ApartAfterPaying(ds: seq<Party>, cs: seq<Party>, i: nat, j: nat)
    requires ds != [] && cs != [] && Positive(ds) && Positive(cs) && NoDust(ds) && NoDust(cs)
    requires i <= |ds| && j <= |cs|
    ensures var rest := [ds[0].(amt := ds[0].amt - cs[0].amt)] + ds[1..];
      if i > 0 && j > 0 then Apart(Prefix(ds, i), Prefix(cs, j)) <==> Apart(Prefix(rest, i), Prefix(cs[1..], j - 1))
      else Apart(Prefix(ds, i), Prefix(cs, j))
  {
    if i > 0 && j > 0 {
      PrefixOfAdvance(ds, cs[0].amt, i - 1);
      PrefixOfAdvance(cs, cs[0].amt, j - 1);
    } else {
      PrefixNotDust(ds, i);
      PrefixNotDust(cs, j);
      PrefixPositive(ds, i);
      PrefixPositive(cs, j);
    }
  }

  lemma HeadAside(queue: seq<Party>, left: int)
    requires queue != [] && queue[0].amt != DUST
    ensures NoDust(queue[1..]) <==> NoDust(queue)
    ensures left != DUST ==> (NoDust([queue[0].(amt := left)] + queue[1..]) <==> NoDust(queue))
  {
    var rest := [queue[0].(amt := left)] + queue[1..];
    assert forall i :: 0 < i < |queue| ==> rest[i] == queue[i] == queue[1..][i - 1];
  }

  /** Clearing the smaller head against the larger one keeps cleanness, both ways, unless it leaves dust. */
  lemma CleanAfterPaying(ds: seq<Party>, cs: seq<Party>)
    requires ds != [] && cs != [] && Positive(ds) && Positive(cs)
    requires DUST < cs[0].amt && cs[0].amt + DUST < ds[0].amt
    ensures var rest := [ds[0].(amt := ds[0].amt - cs[0].amt)] + ds[1..];
      Clean(ds, cs) <==> Clean(rest, cs[1..])
  {
    var rest, tail := [ds[0].(amt := ds[0].amt - cs[0].amt)] + ds[1..], cs[1..];
    HeadAside(ds, ds[0].amt - cs[0].amt);
    HeadAside(cs, 0);
    if Clean(ds, cs) {
      forall i: nat, j: nat | i <= |rest| && j <= |tail| ensures Apart(Prefix(rest, i), Prefix(tail, j)) {
        if i > 0 {
          ApartAfterPaying(ds, cs, i, j + 1);
        } else {
          PrefixNotDust(tail, j);
          PrefixPositive(tail, j);
        }
      }
    }
    if Clean(rest, tail) {
      forall i: nat, j: nat | i <= |ds| && j <= |cs| ensures Apart(Prefix(ds, i), Prefix(cs, j)) {
        ApartAfterPaying(ds, cs, i, j);
      }
    }
  }

  /** So does clearing two equal heads against each other. */
  lemma CleanAfterMeeting(ds: seq<Party>, cs: seq<Party>)
    requires ds != [] && cs != [] && Positive(ds) && Positive(cs)
    requires DUST < cs[0].amt == ds[0].amt
    ensures Clean(ds, cs) <==> Clean(ds[1..], cs[1..])
  {
    HeadAside(ds, 0);
    HeadAside(cs, 0);
    if Clean(ds, cs) {
      forall i: nat, j: nat | i <= |ds[1..]| && j <= |cs[1..]| ensures Apart(Prefix(ds[1..], i), Prefix(cs[1..], j)) {
        assert Apart(Prefix(ds, i + 1), Prefix(cs, j + 1));
      }
    }
    if Clean(ds[1..], cs[1..]) {
      forall i: nat, j: nat | i <= |ds| && j <= |cs| ensures Apart(Prefix(ds, i), Prefix(cs, j)) {
        if i == 0 || j == 0 {
          ApartAfterPaying(ds, cs, i, j);
        } else {
          assert Apart(Prefix(ds[1..], i - 1), Prefix(cs[1..], j - 1));
        }
      }
    }
  }

  /** Heads one unit apart: the running totals come within a unit there. */
  lemma GapAtHeads(ds: seq<Party>, cs: seq<Party>)
    requires ds != [] && cs != [] && !Apart(ds[0].amt, cs[0].amt)
    ensures !Clean(ds, cs)
  {
    assert Prefix(ds, 1) == ds[0].amt + Prefix(ds[1..], 0) && Prefix(cs, 1) == cs[0].amt + Prefix(cs[1..], 0);
    assert !Apart(Prefix(ds, 1), Prefix(cs, 1));
  }

  /** Two sides of equal totals are settled in full exactly when no dust arises on the way. */
  lemma {:induction false} SettleClearsIff(ds: seq<Party>, cs: seq<Party>)
    requires Positive(ds) && Positive(cs) && Amt(ds) == Amt(cs)
    ensures TotalMoved(Settle(ds, cs)) == Amt(ds) <==> Clean(ds, cs)
    decreases |ds| + |cs|
  {
    if ds == [] || cs == [] {
      PrefixPositive(ds, |ds|);
      PrefixPositive(cs, |cs|);
    } else if ds[0].amt == DUST || cs[0].amt == DUST {
      DustIsDropped(ds, cs);
    } else {
      var s := NextStep(ds, cs);
      StepAmounts(ds, cs);
      assert TotalMoved(Settle(ds, cs)) == s.sent.value.amount + TotalMoved(Settle(s.ds, s.cs)) by {
        assert ([s.sent.value] + Settle(s.ds, s.cs))[1..] == Settle(s.ds, s.cs);
      }
      if !Apart(ds[0].amt, cs[0].amt) {
        GapAtHeads(ds, cs);
        MovedAtMost(s.ds, s.cs);
        DroppedDust(ds, cs);
      } else {
        SettledStep(ds, cs);
        SettleClearsIff(s.ds, s.cs);
      }
    }
  }

  /** A head of one unit is passed over, and its unit is never moved. */
  lemma DustIsDropped(ds: seq<Party>, cs: seq<Party>)
    requires ds != [] && cs != [] && Positive(ds) && Positive(cs) && Amt(ds) == Amt(cs)
    requires ds[0].amt == DUST || cs[0].amt == DUST
    ensures TotalMoved(Settle(ds, cs)) < Amt(ds) && !Clean(ds, cs)
  {
    var s := NextStep(ds, cs);
    StepAmounts(ds, cs);
    MovedAtMost(s.ds, s.cs);
  }

  /** Heads one unit apart: the unit left over is dropped. */
  lemma DroppedDust(ds: seq<Party>, cs: seq<Party>)
    requires ds != [] && cs != [] && DUST < ds[0].amt && DUST < cs[0].amt && !Apart(ds[0].amt, cs[0].amt)
    ensures var s := NextStep(ds, cs);
      Amt(s.ds) + s.sent.value.amount < Amt(ds) || Amt(s.cs) + s.sent.value.amount < Amt(cs)
  {
  }

  lemma SettledStep(ds: seq<Party>, cs: seq<Party>)
    requires ds != [] && cs != [] && Positive(ds) && Positive(cs)
    requires DUST < ds[0].amt && DUST < cs[0].amt && Apart(ds[0].amt, cs[0].amt)
    ensures var s := NextStep(ds, cs);
      && Amt(s.ds) + s.sent.value.amount == Amt(ds) && Amt(s.cs) + s.sent.value.amount == Amt(cs)
      && (Clean(s.ds, s.cs) <==> Clean(ds, cs))
  {
    var s := NextStep(ds, cs);
    PrefixOfAdvance(ds, s.sent.value.amount, |ds| - 1);
    PrefixOfAdvance(cs, s.sent.value.amount, |cs| - 1);
    if ds[0].amt == cs[0].amt {
      CleanAfterMeeting(ds, cs);
    } else if ds[0].amt > cs[0].amt {
      CleanAfterPaying(ds, cs);
    } else {
      CleanAfterPaying(cs, ds);
      CleanIsSymmetric(ds, cs);
      CleanIsSymmetric(s.ds, s.cs);
    }
  }

  // ---------- Lifted to nets

  lemma {:induction false} PrefixStep(queue: seq<Party>, k: nat)
    requires k < |queue|
    ensures Prefix(queue, k + 1) == Prefix(queue, k) + queue[k].amt
  {
    if k > 0 {
      PrefixStep(queue[1..], k - 1);
    }
  }

  lemma {:induction false} PrefixOfFront(queue: seq<Party>, p: Party, k: nat)
    requires k <= |queue|
    ensures Prefix(queue + [p], k) == Prefix(queue, k)
  {
    if k > 0 {
      assert (queue + [p])[1..] == queue[1..] + [p];
      PrefixOfFront(queue[1..], p, k - 1);
    }
  }

  lemma AmtAppend(queue: seq<Party>, p: Party)
    ensures Amt(queue + [p]) == Amt(queue) + p.amt
  {
    PrefixStep(queue + [p], |queue|);
    PrefixOfFront(queue, p, |queue|);
  }

  lemma AmtOfHead(p: Party, queue: seq<Party>)
    ensures Amt([p] + queue) == p.amt + Amt(queue)
  {
    assert ([p] + queue)[1..] == queue;
  }

  lemma {:induction false} InsertKeepsAmt(p: Party, queue: seq<Party>)
    ensures Amt(Sorting.Insert(LargestFirst(), p, queue)) == p.amt + Amt(queue)
  {
    AmtOfHead(p, queue);
    if queue != [] && !LargestFirst()(p, queue[0]) {
      InsertKeepsAmt(p, queue[1..]);
      AmtOfHead(queue[0], Sorting.Insert(LargestFirst(), p, queue[1..]));
    }
  }

  lemma {:induction false} SortKeepsAmt(queue: seq<Party>)
    ensures Amt(Sorting.Sort(LargestFirst(), queue)) == Amt(queue)
  {
    if queue != [] {
      SortKeepsAmt(queue[1..]);
      InsertKeepsAmt(queue[0], Sorting.Sort(LargestFirst(), queue[1..]));
    }
  }

  lemma {:induction false} SidesOfNets(nets: Nets)
    ensures Positive(Debtors(nets)) && Amt(Debtors(nets)) == Unsettled(nets, [], true)
    ensures Positive(Creditors(nets)) && Amt(Creditors(nets)) == Unsettled(nets, [], false)
  {
    if nets != [] {
      var front, last := nets[..|nets| - 1], nets[|nets| - 1];
      var v := RoundFine(last.1);
      SidesOfNets(front);
      AmtAppend(Debtors(front), Party(last.0, -v));
      AmtAppend(Creditors(front), Party(last.0, v));
      assert v >= 0 ==> Debtors(nets) == Debtors(front);
      assert v <= 0 ==> Creditors(nets) == Creditors(front);
    }
  }

  function SortedDebts(nets: Nets): seq<Party> {
    Sorting.Sort(LargestFirst(), Debtors(nets))
  }

  function SortedCredits(nets: Nets): seq<Party> {
    Sorting.Sort(LargestFirst(), Creditors(nets))
  }

  ghost predicate Falling(queue: seq<Party>) {
    forall i, j :: 0 <= i < j < |queue| ==> queue[i].amt >= queue[j].amt
  }

  lemma SortedSide(queue: seq<Party>)
    requires Positive(queue)
    ensures var s := Sorting.Sort(LargestFirst(), queue); Positive(s) && Falling(s) && Amt(s) == Amt(queue)
  {
    var s := Sorting.Sort(LargestFirst(), queue);
    Sorting.SortSorts(LargestFirst(), queue);
    Sorting.SortIsPermutation(LargestFirst(), queue);
    SortKeepsAmt(queue);
    forall i | 0 <= i < |s| ensures s[i].amt > 0 { assert s[i] in queue; }
    forall i, j | 0 <= i < j < |s| ensures s[i].amt >= s[j].amt { assert LargestFirst()(s[i], s[j]); }
  }

  /** On sorted sides of equal totals a one-unit amount is itself a gap, at the end of its side. */
  lemma NoGapHasNoDust(queue: seq<Party>, other: seq<Party>)
    requires Positive(queue) && Falling(queue) && Amt(queue) == Amt(other) && NoGap(queue, other)
    ensures NoDust(queue)
  {
    if queue != [] {
      var n := |queue| - 1;
      PrefixStep(queue, n);
      assert Apart(Prefix(queue, n), Prefix(other, |other|));
      assert queue[n].amt > DUST;
      assert forall i :: 0 <= i < n ==> queue[i].amt >= queue[n].amt;
    }
  }

  ghost predicate FromDebtorsToCreditors(nets: Nets, ts: seq<Transfer>) {
    forall k :: 0 <= k < |ts| ==> MinorNet(nets, ts[k].from) < 0 < MinorNet(nets, ts[k].to)
  }

  lemma TransfersCrossOver(nets: Nets)
    requires OneEntryPerUser(nets)
    ensures FromDebtorsToCreditors(nets, Simplify(nets))
  {
    var ts := Simplify(nets);
    forall k | 0 <= k < |ts| ensures MinorNet(nets, ts[k].from) < 0 < MinorNet(nets, ts[k].to) {
      PairedAt(ts, k);
      TransferBounds(nets, ts[k].from, ts[k].to);
    }
  }

  lemma {:induction false} UnsettledAfter(nets: Nets, ts: seq<Transfer>, debtSide: bool)
    requires OneEntryPerUser(nets) && FromDebtorsToCreditors(nets, ts)
    ensures Unsettled(nets, ts, debtSide) == Unsettled(nets, [], debtSide) - TotalMoved(ts)
  {
    if ts != [] {
      UnsettledAfter(nets, ts[1..], debtSide);
      UnsettledStep(nets, ts, debtSide);
    }
  }

  /** Nothing is open on a side exactly when each of its users ends at zero. */
  lemma {:induction false} NothingOpenIff(all: Nets, nets: Nets, debtSide: bool)
    requires OneEntryPerUser(all) && nets <= all
    ensures Unsettled(nets, Simplify(all), debtSide) >= 0
    ensures Unsettled(nets, Simplify(all), debtSide) == 0 <==>
      forall k :: 0 <= k < |nets| && (if debtSide then RoundFine(nets[k].1) < 0 else RoundFine(nets[k].1) > 0) ==>
        NetAfter(RoundFine(nets[k].1), Simplify(all), nets[k].0) == 0
  {
    if nets != [] {
      var n := |nets| - 1;
      NothingOpenIff(all, nets[..n], debtSide);
      MinorNetAt(all, n);
      NetsOnlyShrink(all, nets[n].0);
      assert forall k :: 0 <= k < n ==> nets[..n][k] == nets[k];
    }
  }

  ghost predicate AllCleared(nets: Nets) {
    forall u :: NetAfter(MinorNet(nets, u), Simplify(nets), u) == 0
  }

  lemma AllClearedIff(nets: Nets)
    requires OneEntryPerUser(nets)
    ensures AllCleared(nets) <==>
      Unsettled(nets, Simplify(nets), true) == 0 && Unsettled(nets, Simplify(nets), false) == 0
  {
    var ts := Simplify(nets);
    NothingOpenIff(nets, nets, true);
    NothingOpenIff(nets, nets, false);
    if AllCleared(nets) {
      forall k | 0 <= k < |nets| ensures NetAfter(RoundFine(nets[k].1), ts, nets[k].0) == 0 {
        MinorNetAt(nets, k);
        assert NetAfter(MinorNet(nets, nets[k].0), ts, nets[k].0) == 0;
      }
    } else if Unsettled(nets, ts, true) == 0 && Unsettled(nets, ts, false) == 0 {
      forall u ensures NetAfter(MinorNet(nets, u), ts, u) == 0 {
        NetsOnlyShrink(nets, u);
        if k :| 0 <= k < |nets| && nets[k].0 == u {
          MinorNetAt(nets, k);
        } else {
          MinorNetAbsent(nets, u);
        }
      }
    }
  }

  /**
   * The settlement clears every debt and every credit if and only if the nets sum to zero and, with both sides sorted
   * from the largest, no running total of debts is one minor unit away from a running total of credits.
   */
  lemma EverythingIsSettledIff(nets: Nets)
    requires OneEntryPerUser(nets)
    ensures AllCleared(nets) <==> SumMinor(nets) == 0 && NoGap(SortedDebts(nets), SortedCredits(nets))
  {
    var ds, cs, ts := SortedDebts(nets), SortedCredits(nets), Simplify(nets);
    SidesOfNets(nets);
    SortedSide(Debtors(nets));
    SortedSide(Creditors(nets));
    TransfersCrossOver(nets);
    UnsettledAfter(nets, ts, true);
    UnsettledAfter(nets, ts, false);
    UnsettledNothing(nets);
    AllClearedIff(nets);
    if SumMinor(nets) == 0 {
      SettleClearsIff(ds, cs);
      if NoGap(ds, cs) {
        NoGapHasNoDust(ds, cs);
        CleanIsSymmetric(ds, cs);
        assert NoGap(cs, ds);
        NoGapHasNoDust(cs, ds);
      }
    }
  }
}
