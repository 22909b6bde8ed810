/**
 * The balance cache under overlapping calls. A balance read looks the snapshot up, reads the group's rows, and stores
 * what it computed; a write commits its row and then drops the snapshot. Any number of calls interleave at these
 * commands.
 */
module BalanceCache {
  import opened Sequences
  import opened Decimals
  import opened OrderedMaps
  import opened BalanceEngine
  import opened ExpenseLedger

  type CallId = nat

  /** Where a balance read stands after it missed the cache. */
  datatype Reader = Missed(group: GroupId) | HasRead(group: GroupId, snap: GroupBalances)

  /** `writers`: writes that have committed and still have to drop their group's snapshot. */
  datatype State = State(expenses: map<ExpenseId, Expense>, cache: map<GroupId, GroupBalances>,
                         readers: map<CallId, Reader>, writers: map<CallId, GroupId>)

  const START := State(map[], map[], map[], map[])

  datatype Step =
    | Lookup(call: CallId, group: GroupId)
    | ReadRows(call: CallId, order: seq<ExpenseId>)
    | Store(call: CallId)
    | Commit(call: CallId, id: ExpenseId, e: Expense)
    | Invalidate(call: CallId)
    | Expire(group: GroupId)

  /** A commit writes one row and never moves it to another group; rows may be read in any order. */
  ghost predicate Enabled(s: State, step: Step) {
    match step
    case Lookup(call, _) => call !in s.readers
    case ReadRows(call, order) =>
      call in s.readers && s.readers[call].Missed? && Enumerates(s.expenses, s.readers[call].group, order)
    case Store(call) => call in s.readers && s.readers[call].HasRead?
    case Commit(call, id, e) => call !in s.writers && (id in s.expenses ==> s.expenses[id].group == e.group)
    case Invalidate(call) => call in s.writers
    case Expire(_) => true
  }

  function Next(s: State, step: Step): State
    requires Enabled(s, step)
  {
    match step
    case Lookup(call, group) =>
      if group in s.cache then s else s.(readers := s.readers[call := Missed(group)])
    case ReadRows(call, order) =>
      var group := s.readers[call].group;
      s.(readers := s.readers[call := HasRead(group, GroupBalancesOf(Entries(s.expenses, order)))])
    case Store(call) =>
      s.(cache := s.cache[s.readers[call].group := s.readers[call].snap], readers := s.readers - {call})
    case Commit(call, id, e) => s.(expenses := s.expenses[id := e], writers := s.writers[call := e.group])
    case Invalidate(call) => s.(cache := s.cache - {s.writers[call]}, writers := s.writers - {call})
    case Expire(group) => s.(cache := s.cache - {group})
  }

  ghost predicate StepAt(states: seq<State>, steps: seq<Step>, i: nat)
    requires i < |steps| && i + 1 < |states|
  {
    Enabled(states[i], steps[i]) && states[i + 1] == Next(states[i], steps[i])
  }

  ghost predicate IsRun(states: seq<State>, steps: seq<Step>) {
    |states| == |steps| + 1 && forall i :: 0 <= i < |steps| ==> StepAt(states, steps, i)
  }

  // ---------- When the cached snapshot is stale

  ghost predicate Fresh(s: State, g: GroupId) {
    g in s.cache ==> Current(s.expenses, g, s.cache[g])
  }

  /** A committed write still has to drop the snapshot. */
  ghost predicate DropPending(s: State, g: GroupId) {
    exists call :: call in s.writers && s.writers[call] == g
  }

  /** What is cached is current, or about to be dropped. */
  ghost predicate Settled(s: State, g: GroupId) {
    Fresh(s, g) || DropPending(s, g)
  }

  /** A read that computed its snapshot from rows that have changed nets since. */
  ghost predicate HoldsStale(s: State, call: CallId, g: GroupId) {
    && call in s.readers && s.readers[call].HasRead? && s.readers[call].group == g
    && !Current(s.expenses, g, s.readers[call].snap)
  }

  lemma DropStaysPending(s: State, g: GroupId, step: Step)
    requires Enabled(s, step) && DropPending(s, g) && !(step.Invalidate? && s.writers[step.call] == g)
    ensures DropPending(Next(s, step), g)
  {
    var call :| call in s.writers && s.writers[call] == g;
    assert call in Next(s, step).writers && Next(s, step).writers[call] == g;
  }

  lemma CommitKeepsSettled(s: State, g: GroupId, call: CallId, id: ExpenseId, e: Expense)
    requires Enabled(s, Commit(call, id, e)) && Settled(s, g)
    ensures Settled(Next(s, Commit(call, id, e)), g)
  {
    var t := Next(s, Commit(call, id, e));
    if e.group == g {
      assert t.writers[call] == g;
    } else if DropPending(s, g) {
      DropStaysPending(s, g, Commit(call, id, e));
    } else if g in s.cache {
      CurrentFrame(s.expenses, t.expenses, g, s.cache[g]);
    }
  }

  /**
   * The one step that puts a stale snapshot into the cache to stay: a read that holds a stale snapshot stores it when
   * no committed write is about to drop it.
   */
  lemma StepKeepsSettledIff(s: State, g: GroupId, step: Step)
    requires Enabled(s, step) && Settled(s, g)
    ensures Settled(Next(s, step), g) <==> !(step.Store? && HoldsStale(s, step.call, g) && !DropPending(s, g))
  {
    var t := Next(s, step);
    match step
    case Commit(call, id, e) => CommitKeepsSettled(s, g, call, id, e);
    case Store(call) =>
      assert DropPending(t, g) <==> DropPending(s, g);
    case Invalidate(call) =>
      if s.writers[call] != g && DropPending(s, g) {
        DropStaysPending(s, g, step);
      }
    case _ =>
      assert DropPending(t, g) <==> DropPending(s, g);
  }

  /** A step that stores a stale snapshot with nothing about to drop it. */
  ghost predicate StoresStale(s: State, step: Step, g: GroupId) {
    step.Store? && HoldsStale(s, step.call, g) && !DropPending(s, g)
  }

  /** Over a whole run the snapshot is always current, or about to be dropped, exactly if no such store ever happens. */
  lemma {:induction false} RunStaysSettledIff(states: seq<State>, steps: seq<Step>, g: GroupId)
    requires IsRun(states, steps) && Settled(states[0], g)
    ensures (forall k :: 0 <= k < |states| ==> Settled(states[k], g)) <==>
            (forall i :: 0 <= i < |steps| ==> !StoresStale(states[i], steps[i], g))
  {
    if steps != [] {
      var n := |steps| - 1;
      var front, taken := states[..n + 1], steps[..n];
      forall i | 0 <= i < n ensures StepAt(front, taken, i) { assert StepAt(states, steps, i); }
      RunStaysSettledIff(front, taken, g);
      assert StepAt(states, steps, n);
      assert forall k :: 0 <= k <= n ==> front[k] == states[k];
      assert forall i :: 0 <= i < n ==> taken[i] == steps[i];
      if Settled(states[n], g) {
        StepKeepsSettledIff(states[n], g, steps[n]);
      }
    }
  }

  // ---------- What can still go wrong from here, without any further write

  ghost predicate NoCommits(steps: seq<Step>) {
    forall i :: 0 <= i < |steps| ==> !steps[i].Commit?
  }

  ghost predicate SomeReaderHoldsStale(s: State, g: GroupId) {
    exists call :: HoldsStale(s, call, g)
  }

  /** In every continuation without further writes, what is cached is current or about to be dropped. */
  ghost predicate StaysSettled(s: State, g: GroupId) {
    forall states: seq<State>, steps: seq<Step> :: IsRun(states, steps) && NoCommits(steps) && states[0] == s ==>
      Settled(states[|steps|], g)
  }

  lemma QuietStepMakesNoStaleReader(s: State, g: GroupId, step: Step)
    requires Enabled(s, step) && !step.Commit? && !SomeReaderHoldsStale(s, g)
    ensures !SomeReaderHoldsStale(Next(s, step), g)
  {
    var t := Next(s, step);
    forall call ensures !HoldsStale(t, call, g) {
      assert !HoldsStale(s, call, g);
      if step.ReadRows? && call == step.call {
        RecomputedIsCurrent(s.expenses, s.readers[call].group, step.order);
      }
    }
  }

  lemma {:induction false} QuietRun(states: seq<State>, steps: seq<Step>, g: GroupId, k: nat)
    requires IsRun(states, steps) && NoCommits(steps) && k < |states|
    requires Settled(states[0], g) && !SomeReaderHoldsStale(states[0], g)
    ensures Settled(states[k], g) && !SomeReaderHoldsStale(states[k], g)
  {
    if k > 0 {
      QuietRun(states, steps, g, k - 1);
      assert StepAt(states, steps, k - 1);
      StepKeepsSettledIff(states[k - 1], g, steps[k - 1]);
      QuietStepMakesNoStaleReader(states[k - 1], g, steps[k - 1]);
    }
  }

  /** The writes that have committed can all drop their snapshots before anything else happens. */
  lemma {:induction false} DropAll(s: State) returns (states: seq<State>, steps: seq<Step>)
    ensures IsRun(states, steps) && NoCommits(steps) && states[0] == s
    ensures var t := states[|steps|]; t.expenses == s.expenses && t.readers == s.readers && t.writers == map[]
    decreases |s.writers.Keys|
  {
    if s.writers == map[] {
      states, steps := [s], [];
    } else {
      var call :| call in s.writers;
      OneDropLess(s, call);
      var rest, more := DropAll(Next(s, Invalidate(call)));
      StepBeforeRun(s, Invalidate(call), rest, more);
      states, steps := [s] + rest, [Invalidate(call)] + more;
    }
  }

  lemma OneDropLess(s: State, call: CallId)
    requires call in s.writers
    ensures var t := Next(s, Invalidate(call));
      t.expenses == s.expenses && t.readers == s.readers && |t.writers.Keys| + 1 == |s.writers.Keys|
  {
    var t := Next(s, Invalidate(call));
    assert s.writers.Keys == t.writers.Keys + {call};
  }

  lemma StepBeforeRun(s: State, step: Step, states: seq<State>, steps: seq<Step>)
    requires Enabled(s, step) && IsRun(states, steps) && states[0] == Next(s, step)
    ensures IsRun([s] + states, [step] + steps)
    ensures ([s] + states)[0] == s && ([s] + states)[|[step] + steps|] == states[|steps|]
    ensures !step.Commit? && NoCommits(steps) ==> NoCommits([step] + steps)
  {
    var longer, taken := [s] + states, [step] + steps;
    forall i | 0 <= i < |taken| ensures StepAt(longer, taken, i) {
      assert i > 0 ==> StepAt(states, steps, i - 1);
    }
  }

  lemma ExtendRun(states: seq<State>, steps: seq<Step>, step: Step)
    requires IsRun(states, steps) && Enabled(states[|steps|], step)
    ensures IsRun(states + [Next(states[|steps|], step)], steps + [step])
  {
    var longer, taken := states + [Next(states[|steps|], step)], steps + [step];
    forall i | 0 <= i < |taken| ensures StepAt(longer, taken, i) {
      assert i < |steps| ==> StepAt(states, steps, i);
    }
  }

  lemma StaleReaderStores(s: State, g: GroupId, call: CallId)
    requires HoldsStale(s, call, g)
    ensures !StaysSettled(s, g)
  {
    var states, steps := DropAll(s);
    var t := states[|steps|];
    ExtendRun(states, steps, Store(call));
    var u := Next(t, Store(call));
    assert !Fresh(u, g) && !DropPending(u, g);
    assert (states + [u])[0] == s && (states + [u])[|steps + [Store(call)]|] == u;
  }

  /**
   * Without further writes, the cached snapshot of a group stays current, or about to be dropped, in every continuation
   * if and only if it is so now and no read in flight holds a stale one.
   */
  lemma StaysSettledIff(s: State, g: GroupId)
    ensures StaysSettled(s, g) <==> Settled(s, g) && !SomeReaderHoldsStale(s, g)
  {
    if Settled(s, g) && !SomeReaderHoldsStale(s, g) {
      forall states: seq<State>, steps: seq<Step> | IsRun(states, steps) && NoCommits(steps) && states[0] == s
        ensures Settled(states[|steps|], g)
      {
        QuietRun(states, steps, g, |steps|);
      }
    } else if call :| HoldsStale(s, call, g) {
      StaleReaderStores(s, g, call);
    } else {
      var states, steps: seq<Step> := [s], [];
      assert IsRun(states, steps) && NoCommits(steps) && states[0] == s && states[|steps|] == s;
    }
  }

  // ---------- The calls of the ledger as steps

  ghost predicate IsWrite(op: Op) {
    op.OpCreate? || op.OpPatch? || op.OpDelete?
  }

  /** A write of the ledger run alone changes the rows as one commit does, and drops the snapshot. */
  lemma WriteIsCommitThenInvalidate(s: Ledger, op: Op, s': Ledger) returns (id: ExpenseId, e: Expense)
    requires IsWrite(op) && Steps(s, op, s') && s' != s && Inv(s)
    ensures var before := State(s.expenses, s.cache, map[], map[]);
      && Enabled(before, Commit(0, id, e)) && Sound(e)
      && var committed := Next(before, Commit(0, id, e));
         Next(committed, Invalidate(0)) == State(s'.expenses, s'.cache, map[], map[])
  {
    id := op.id;
    StepKeepsInv(s, op, s');
    e := s'.expenses[id];
  }

  /** A balance read of the ledger run alone is a look-up, and after a miss the reading of the rows and the store. */
  lemma EnsureSnapshotIsARun(s: Ledger, group: GroupId, order: seq<ExpenseId>)
    requires Enumerates(s.expenses, group, order)
    ensures var looked := Next(State(s.expenses, s.cache, map[], map[]), Lookup(0, group));
            var after := State(s.expenses, EnsureSnapshot(s, group, order).0.cache, map[], map[]);
      if group in s.cache then looked == after
      else && Enabled(looked, ReadRows(0, order))
           && Enabled(Next(looked, ReadRows(0, order)), Store(0))
           && Next(Next(looked, ReadRows(0, order)), Store(0)) == after
  {
    var looked := Next(State(s.expenses, s.cache, map[], map[]), Lookup(0, group));
    if group !in s.cache {
      var read := Next(looked, ReadRows(0, order));
      assert read.readers - {0} == map[];
    }
  }

  /**
   * A stale snapshot lasts no longer than its cache entry: with nothing in flight, expiry settles the group again and
   * for good until the next write, and touches nothing else.
   */
  lemma ExpiryHealsStaleSnapshot(s: State, g: GroupId)
    requires forall call :: call in s.readers ==> s.readers[call].group != g
    ensures var t := Next(s, Expire(g));
      && StaysSettled(t, g)
      && t.cache.Keys == s.cache.Keys - {g}
      && (forall h :: h in t.cache ==> t.cache[h] == s.cache[h])
      && t == s.(cache := t.cache)
  {
    StaysSettledIff(Next(s, Expire(g)), g);
  }

  /** A read of an empty group that stores after the first expense has been created and announced leaves it unseen. */
  lemma OverlapLeavesStaleSnapshot(g: GroupId, payer: UserId, ower: UserId)
    returns (states: seq<State>, steps: seq<Step>)
    requires payer != ower
    ensures IsRun(states, steps) && states[0] == START
    ensures var s := states[|steps|]; !Settled(s, g) && s.readers == map[] && s.writers == map[]
  {
    var e := OddExpense(g, payer, ower);
    var s1 := Next(START, Lookup(1, g));
    assert Enumerates(s1.expenses, g, []);
    var s2 := Next(s1, ReadRows(1, []));
    var s3 := Next(s2, Commit(2, 0, e));
    FirstExpenseCounts(s3.expenses, g, payer, ower, s2.readers[1].snap);
    assert HoldsStale(s3, 1, g);
    var s4 := Next(s3, Invalidate(2));
    assert s4.writers == map[];
    var s5 := Next(s4, Store(1));
    assert s5.readers == map[];
    states := [START, s1, s2, s3, s4, s5];
    steps := [Lookup(1, g), ReadRows(1, []), Commit(2, 0, e), Invalidate(2), Store(1)];
    assert StepAt(states, steps, 0) && StepAt(states, steps, 1) && StepAt(states, steps, 2);
    assert StepAt(states, steps, 3) && StepAt(states, steps, 4);
  }

  lemma FirstExpenseCounts(expenses: map<ExpenseId, Expense>, g: GroupId, payer: UserId, ower: UserId,
                           snap: GroupBalances)
    requires payer != ower && expenses == map[0 := OddExpense(g, payer, ower)]
    requires snap == GroupBalancesOf([])
    ensures !Current(expenses, g, snap)
  {
    var order: seq<ExpenseId> := [0];
    var e := Odd(payer, ower);
    assert Enumerates(expenses, g, order);
    assert order[..0] == [] && Entries(expenses, order) == [] + [e] == [e];
    OddOwes(payer, ower);
    ReportedNetIsRoundedLedgerNet([], ower);
    assert RoundFine(LedgerNet([e], ower)) == -100 && Get(snap.netByUserId, ower) == 0;
  }

  lemma OddOwes(payer: UserId, ower: UserId)
    requires payer != ower
    ensures LedgerNet([Odd(payer, ower)], ower) == -10000
  {
    var owed: OMap := [(ower, 10000)];
    assert owed[..0] == [] && SumAt(owed, ower) == 10000;
    assert [Odd(payer, ower)][..0] == [];
    assert ExpenseNet(Odd(payer, ower), ower) == -10000;
  }
}
