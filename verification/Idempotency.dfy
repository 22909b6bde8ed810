/**
 * The idempotency lock of the verify endpoint: look up, set if absent, run the handler, then store the response or
 * delete the lock. One key, any number of requests interleaving at their Redis commands.
 */
module Idempotency {
  import opened Sequences
  import opened Redis

  type RequestId = nat
  type Response = nat
  type Key = nat

  const PROCESSING_TTL_S := 30
  const COMPLETED_TTL_S := 600

  datatype Entry = Processing | Completed(response: Response)

  /** Where a request stands between two commands. */
  datatype Phase = FoundNothing | LostRace | Running(since: nat)

  datatype State = State(entry: Option<Timed<Entry>>, requests: map<RequestId, Phase>, now: nat)

  datatype Step =
    | Lookup(r: RequestId)
    | Acquire(r: RequestId)
    | Reread(r: RequestId)
    | Complete(r: RequestId, response: Response)
    | Release(r: RequestId)
    | Tick(ms: nat)

  /** What a step tells the request that makes it. */
  datatype Outcome = Nothing | Conflict | Cached(response: Response) | Started

  function Live(s: State): Option<Entry> {
    if s.entry.Some? && s.now < s.entry.value.expiresAt then Some(s.entry.value.value) else None
  }

  predicate InPhase(s: State, r: RequestId, p: Phase) {
    r in s.requests && s.requests[r] == p
  }

  predicate IsRunning(s: State, r: RequestId) {
    r in s.requests && s.requests[r].Running?
  }

  predicate Enabled(s: State, step: Step) {
    match step
    case Lookup(r) => r !in s.requests
    case Acquire(r) => InPhase(s, r, FoundNothing)
    case Reread(r) => InPhase(s, r, LostRace)
    case Complete(r, _) => IsRunning(s, r)
    case Release(r) => IsRunning(s, r)
    case Tick(_) => true
  }

  function Next(s: State, step: Step): (State, Outcome)
    requires Enabled(s, step)
  {
    match step
    case Lookup(r) =>
      (match Live(s)
       case Some(Processing) => (s, Conflict)
       case Some(Completed(resp)) => (s, Cached(resp))
       case None => (s.(requests := s.requests[r := FoundNothing]), Nothing))
    case Acquire(r) =>
      if Live(s).Some? then (s.(requests := s.requests[r := LostRace]), Nothing)
      else (s.(entry := Some(Timed(Processing, s.now + PROCESSING_TTL_S * 1000)),
               requests := s.requests[r := Running(s.now)]), Started)
    case Reread(r) =>
      var idle := s.(requests := s.requests - {r});
      (match Live(s)
       case Some(Completed(resp)) => (idle, Cached(resp))
       case _ => (idle, Conflict))
    case Complete(r, response) =>
      var entry := Timed(Completed(response), s.now + COMPLETED_TTL_S * 1000);
      (s.(entry := Some(entry), requests := s.requests - {r}), Nothing)
    case Release(r) => (s.(entry := None, requests := s.requests - {r}), Nothing)
    case Tick(ms) => (s.(now := s.now + ms), Nothing)
  }

  ghost predicate StepAt(states: seq<State>, steps: seq<Step>, i: nat)
    requires i < |steps| && i + 1 < |states|
  {
    Enabled(states[i], steps[i]) && states[i + 1] == Next(states[i], steps[i]).0
  }

  ghost predicate IsRun(states: seq<State>, steps: seq<Step>) {
    |states| == |steps| + 1 && forall i :: 0 <= i < |steps| ==> StepAt(states, steps, i)
  }

  const START := State(None, map[], 0)

  /** Every running handler is still inside its thirty-second lock. */
  ghost predicate InTime(s: State) {
    forall r :: IsRunning(s, r) ==> s.now < s.requests[r].since + PROCESSING_TTL_S * 1000
  }

  ghost predicate InTimeRun(states: seq<State>, steps: seq<Step>) {
    IsRun(states, steps) && states[0] == START && forall i :: 0 <= i < |states| ==> InTime(states[i])
  }

  /** A running handler owns the lock entry, and no one else runs. */
  ghost predicate Exclusive(s: State) {
    && (forall r :: IsRunning(s, r) ==>
          s.entry == Some(Timed(Processing, s.requests[r].since + PROCESSING_TTL_S * 1000)))
    && (forall a, b :: IsRunning(s, a) && IsRunning(s, b) ==> a == b)
  }

  lemma StepKeepsExclusive(s: State, step: Step)
    requires Exclusive(s) && InTime(s) && Enabled(s, step)
    ensures Exclusive(Next(s, step).0)
  {
    var t := Next(s, step).0;
    assert forall r :: IsRunning(s, r) ==> Live(s) == Some(Processing);
    assert step.Complete? || step.Release? ==> IsRunning(s, step.r);
    forall r | IsRunning(t, r) ensures IsRunning(s, r) || (step == Acquire(r) && Next(s, step).1.Started?) { }
  }

  lemma {:induction false} RunIsExclusive(states: seq<State>, steps: seq<Step>, k: nat)
    requires InTimeRun(states, steps) && k < |states|
    ensures Exclusive(states[k])
  {
    if k > 0 {
      RunIsExclusive(states, steps, k - 1);
      assert StepAt(states, steps, k - 1) && InTime(states[k - 1]);
      StepKeepsExclusive(states[k - 1], steps[k - 1]);
    }
  }

  /** While handlers finish inside their lock, at most one handler for the key runs at any moment. */
  lemma AtMostOneHandler(states: seq<State>, steps: seq<Step>, k: nat, a: RequestId, b: RequestId)
    requires InTimeRun(states, steps) && k < |states|
    requires IsRunning(states[k], a) && IsRunning(states[k], b)
    ensures a == b
  {
    RunIsExclusive(states, steps, k);
  }

  lemma {:induction false} TimeMovesForward(states: seq<State>, steps: seq<Step>, i: nat, j: nat)
    requires IsRun(states, steps) && i <= j < |states|
    ensures states[i].now <= states[j].now
    decreases j - i
  {
    if i < j {
      TimeMovesForward(states, steps, i, j - 1);
      assert StepAt(states, steps, j - 1);
    }
  }

  lemma CompletedStepKeepsEntry(s: State, step: Step, response: Response)
    requires Exclusive(s) && InTime(s) && Enabled(s, step) && Live(s) == Some(Completed(response))
    ensures Next(s, step).0.entry == s.entry
    ensures Next(s, step).1 != Started
    ensures Next(s, step).1.Cached? ==> Next(s, step).1 == Cached(response)
    ensures step.Lookup? || step.Reread? ==> Next(s, step).1 == Cached(response)
  {
    assert forall r :: IsRunning(s, r) ==> Live(s) == Some(Processing);
  }

  lemma {:induction false} CompletedEntryStays(states: seq<State>, steps: seq<Step>, i: nat, j: nat, response: Response)
    requires InTimeRun(states, steps) && i < j < |states| && steps[i].Complete? && steps[i].response == response
    requires states[j].now < states[i].now + COMPLETED_TTL_S * 1000
    ensures states[j].entry == Some(Timed(Completed(response), states[i].now + COMPLETED_TTL_S * 1000))
    decreases j - i
  {
    assert StepAt(states, steps, j - 1) && InTime(states[j - 1]);
    if i + 1 < j {
      TimeMovesForward(states, steps, j - 1, j);
      CompletedEntryStays(states, steps, i, j - 1, response);
      RunIsExclusive(states, steps, j - 1);
      CompletedStepKeepsEntry(states[j - 1], steps[j - 1], response);
    }
  }

  /**
   * From the moment a handler completes until its stored response expires ten minutes later, no handler starts, and
   * every look-up of the key returns that response.
   */
  lemma CompletedResponseIsReplayed(states: seq<State>, steps: seq<Step>, i: nat, j: nat)
    requires InTimeRun(states, steps) && i < j < |steps| && steps[i].Complete?
    requires states[j].now < states[i].now + COMPLETED_TTL_S * 1000
    ensures StepAt(states, steps, j)
    ensures StepAt(states, steps, j) ==>
      var o := Next(states[j], steps[j]).1;
      && o != Started
      && (o.Cached? ==> o.response == steps[i].response)
      && (steps[j].Lookup? || steps[j].Reread? ==> o == Cached(steps[i].response))
  {
    CompletedEntryStays(states, steps, i, j, steps[i].response);
    RunIsExclusive(states, steps, j);
    assert StepAt(states, steps, j) && InTime(states[j]);
    CompletedStepKeepsEntry(states[j], steps[j], steps[i].response);
  }

  lemma ExtendRun(states: seq<State>, steps: seq<Step>, step: Step)
    requires IsRun(states, steps) && Enabled(states[|steps|], step)
    ensures IsRun(states + [Next(states[|steps|], step).0], steps + [step])
  {
    var longer, taken := states + [Next(states[|steps|], step).0], steps + [step];
    forall i | 0 <= i < |taken| ensures StepAt(longer, taken, i) {
      assert i < |steps| ==> StepAt(states, steps, i);
    }
  }

  /** Request 1 overruns its lock, and request 2 takes it over. */
  lemma Overrun() returns (states: seq<State>, steps: seq<Step>)
    ensures IsRun(states, steps) && states[0] == START
    ensures var s := states[|steps|];
      && s.now == 30000 && s.entry == Some(Timed(Processing, 60000))
      && s.requests.Keys == {1, 2} && InPhase(s, 1, Running(0)) && InPhase(s, 2, Running(30000))
  {
    var s1 := Next(START, Lookup(1)).0;
    var s2 := Next(s1, Acquire(1)).0;
    var s3 := Next(s2, Tick(30000)).0;
    var s4 := Next(s3, Lookup(2)).0;
    assert IsRun([START], []);
    ExtendRun([START], [], Lookup(1));
    ExtendRun([START, s1], [Lookup(1)], Acquire(1));
    ExtendRun([START, s1, s2], [Lookup(1), Acquire(1)], Tick(30000));
    ExtendRun([START, s1, s2, s3], [Lookup(1), Acquire(1), Tick(30000)], Lookup(2));
    ExtendRun([START, s1, s2, s3, s4], [Lookup(1), Acquire(1), Tick(30000), Lookup(2)], Acquire(2));
    states := [START, s1, s2, s3, s4] + [Next(s4, Acquire(2)).0];
    steps := [Lookup(1), Acquire(1), Tick(30000), Lookup(2)] + [Acquire(2)];
  }

  /**
   * The thirty-second bound is needed, and for every handler: a handler that overruns its lock deletes the next
   * one's on release, and a third starts while the second is still inside its own thirty seconds.
   */
  lemma LateReleaseAdmitsTwoHandlers() returns (states: seq<State>, steps: seq<Step>)
    ensures IsRun(states, steps) && states[0] == START
    ensures var s := states[|steps|]; IsRunning(s, 2) && IsRunning(s, 3) && InTime(s)
  {
    states, steps := Overrun();
    for k := 0 to 3
      invariant IsRun(states, steps) && states[0] == START
      invariant LateRelease(k, states[|steps|])
    {
      var step := if k == 0 then Release(1) else if k == 1 then Lookup(3) else Acquire(3);
      ExtendRun(states, steps, step);
      states, steps := states + [Next(states[|steps|], step).0], steps + [step];
    }
  }

  /** After k of: request 1 releases, request 3 looks up, request 3 acquires. */
  ghost predicate LateRelease(k: nat, s: State) {
    && s.now == 30000 && InPhase(s, 2, Running(30000))
    && match k
       case 0 => s.requests.Keys == {1, 2} && IsRunning(s, 1)
       case 1 => s.requests.Keys == {2} && s.entry.None?
       case 2 => s.requests.Keys == {2, 3} && s.entry.None? && InPhase(s, 3, FoundNothing)
       case _ => s.requests.Keys == {2, 3} && InPhase(s, 3, Running(30000))
  }

  // ---------- Exactly when a second handler can start

  /** Handlers run one at a time, and only under a live entry. */
  ghost predicate Covered(s: State) {
    && (forall a, b :: IsRunning(s, a) && IsRunning(s, b) ==> a == b)
    && (forall a :: IsRunning(s, a) ==> Live(s).Some?)
  }

  lemma InstantStepKeepsCovered(s: State, step: Step)
    requires Covered(s) && Enabled(s, step) && !step.Tick?
    ensures Covered(Next(s, step).0)
  {
    var t := Next(s, step).0;
    forall r | IsRunning(t, r) ensures IsRunning(s, r) || (step == Acquire(r) && Live(s).None?) { }
    assert step.Complete? || step.Release? ==> IsRunning(s, step.r);
  }

  ghost predicate Instant(steps: seq<Step>) {
    forall i :: 0 <= i < |steps| ==> !steps[i].Tick?
  }

  lemma {:induction false} InstantRunKeepsCovered(states: seq<State>, steps: seq<Step>, k: nat)
    requires IsRun(states, steps) && Instant(steps) && Covered(states[0]) && k < |states|
    ensures Covered(states[k])
  {
    if k > 0 {
      InstantRunKeepsCovered(states, steps, k - 1);
      assert StepAt(states, steps, k - 1);
      InstantStepKeepsCovered(states[k - 1], steps[k - 1]);
    }
  }

  ghost predicate TwoRun(s: State) {
    exists a, b :: a != b && IsRunning(s, a) && IsRunning(s, b)
  }

  /** Two handlers can come to run together, at this very moment of time. */
  ghost predicate CanOverlap(s: State) {
    exists states: seq<State>, steps: seq<Step> ::
      IsRun(states, steps) && Instant(steps) && states[0] == s && TwoRun(states[|steps|])
  }

  /**
   * While one handler runs, in whatever state, another can come to run beside it without time passing if and only if
   * the key has no live entry: the lock has run out, or someone deleted it.
   */
  lemma SecondHandlerStartsIff(s: State, a: RequestId)
    requires IsRunning(s, a) && forall r :: IsRunning(s, r) ==> r == a
    ensures CanOverlap(s) <==> Live(s).None?
  {
    if Live(s).None? {
      var r := FreshAbove(s.requests.Keys);
      assert r !in s.requests.Keys;
      var found := Next(s, Lookup(r)).0;
      var started := Next(found, Acquire(r)).0;
      var states, steps := [s, found, started], [Lookup(r), Acquire(r)];
      assert StepAt(states, steps, 0) && StepAt(states, steps, 1);
      assert IsRunning(started, a) && IsRunning(started, r);
      assert IsRun(states, steps) && Instant(steps) && states[0] == s && TwoRun(states[|steps|]);
    } else {
      forall states: seq<State>, steps: seq<Step> | IsRun(states, steps) && Instant(steps) && states[0] == s
        ensures !TwoRun(states[|steps|])
      {
        InstantRunKeepsCovered(states, steps, |steps|);
      }
    }
  }

  // ---------- The service, one call at a time

  /** `getOrLock` without interference: a conflict, a stored response, or a newly taken lock. */
  function GetOrLock(keys: map<Key, Timed<Entry>>, key: Key, now: nat): (map<Key, Timed<Entry>>, Outcome) {
    match Get(keys, key, now)
    case None => (SetEx(keys, key, PROCESSING_TTL_S, Processing, now), Started)
    case Some(entry) => (keys, if entry.Completed? then Cached(entry.response) else Conflict)
  }

  /** A call starts work exactly when its key has no live entry; a live lock is a conflict, a response is served. */
  lemma GetOrLockCases(keys: map<Key, Timed<Entry>>, key: Key, now: nat, response: Response)
    ensures var (after, o) := GetOrLock(keys, key, now);
      && (o == Started <==> key !in keys || keys[key].expiresAt <= now)
      && (o == Conflict <==> key in keys && now < keys[key].expiresAt && keys[key].value == Processing)
      && (o == Cached(response) <==> key in keys && now < keys[key].expiresAt && keys[key].value == Completed(response))
      && (o == Started || o == Conflict || o.Cached?)
      && (o == Started ==> after == keys[key := Timed(Processing, now + 30000)])
      && (o != Started ==> after == keys)
  {
  }

  /** What one key holds, with no request in flight, as a state of the protocol. */
  function StateOf(keys: map<Key, Timed<Entry>>, key: Key, now: nat): State {
    State(if key in keys then Some(keys[key]) else None, map[], now)
  }

  /** Run alone the call is a run of the protocol: the look-up answers, or the lock is then taken. */
  lemma GetOrLockIsARun(keys: map<Key, Timed<Entry>>, key: Key, now: nat, r: RequestId)
    ensures var s := StateOf(keys, key, now);
            var looked := Next(s, Lookup(r));
            var (after, o) := GetOrLock(keys, key, now);
      && Enabled(s, Lookup(r))
      && (o != Started ==> looked == (StateOf(after, key, now), o))
      && (o == Started ==>
            && looked.1 == Nothing && Enabled(looked.0, Acquire(r))
            && Next(looked.0, Acquire(r)) == (StateOf(after, key, now).(requests := map[r := Running(now)]), Started))
  {
    assert map[r := FoundNothing][r := Running(now)] == map[r := Running(now)];
  }

  /** The keys after a verify call that began at `started` and finished at `done`. */
  function Handled(keys: map<Key, Timed<Entry>>, key: Key, started: nat, done: nat, verified: Option<Response>)
    : (map<Key, Timed<Entry>>, Result<Response, HandlerError>)
  {
    match GetOrLock(keys, key, started).1
    case Cached(response) => (keys, Ok(response))
    case Started =>
      if verified.Some?
      then (SetEx(keys, key, COMPLETED_TTL_S, Completed(verified.value), done), Ok(verified.value))
      else (keys - {key}, Err(HandlerFailed))
    case _ => (keys, Err(IdempotencyConflict))
  }

  /** What a verify call returns and leaves, by what its key holds when it begins. */
  lemma HandledCases(keys: map<Key, Timed<Entry>>, key: Key, started: nat, done: nat, verified: Option<Response>)
    ensures var live := key in keys && started < keys[key].expiresAt;
            var h := Handled(keys, key, started, done, verified);
      && (live && keys[key].value.Processing? ==> h == (keys, Err(IdempotencyConflict)))
      && (live && keys[key].value.Completed? ==> h == (keys, Ok(keys[key].value.response)))
      && (!live && verified.Some? ==>
            h == (keys[key := Timed(Completed(verified.value), done + 600000)], Ok(verified.value)))
      && (!live && verified.None? ==> h == (keys - {key}, Err(HandlerFailed)))
  {
  }

  /**
   * A call that has returned a response it computed is replayed for ten minutes: whatever a later call would have
   * computed, it returns the first response and leaves the entry alone. After that, and after a failure, a call
   * computes again.
   */
  lemma HandledIsReplayed(keys: map<Key, Timed<Entry>>, key: Key, started: nat, done: nat, verified: Option<Response>,
                          again: nat, doneAgain: nat, other: Option<Response>)
    requires started <= done <= again && GetOrLock(keys, key, started).1 == Started
    ensures var after := Handled(keys, key, started, done, verified).0;
      && (verified.Some? && again < done + 600000 ==>
            Handled(after, key, again, doneAgain, other) == (after, Ok(verified.value)))
      && (verified.Some? && again >= done + 600000 ==> GetOrLock(after, key, again).1 == Started)
      && (verified.None? ==> GetOrLock(after, key, again).1 == Started)
  {
  }

  /** Completing or releasing from the protocol's point of view: the handler's last step leaves the same entry. */
  lemma HandledIsARun(keys: map<Key, Timed<Entry>>, key: Key, started: nat, done: nat, verified: Option<Response>,
                      r: RequestId)
    requires started <= done && GetOrLock(keys, key, started).1 == Started
    ensures var after := StateOf(GetOrLock(keys, key, started).0, key, started);
            var locked := after.(requests := map[r := Running(started)]);
            var last := Next(locked, Tick(done - started)).0;
            var step := if verified.Some? then Complete(r, verified.value) else Release(r);
      && Enabled(locked, Tick(done - started)) && Enabled(last, step)
      && Next(last, step).0 == StateOf(Handled(keys, key, started, done, verified).0, key, done)
  {
    var locked := StateOf(GetOrLock(keys, key, started).0, key, started).(requests := map[r := Running(started)]);
    assert locked.requests - {r} == map[];
  }

  datatype HandlerError = IdempotencyConflict | HandlerFailed

  class IdempotencyService {
    var keys: map<Key, Timed<Entry>>

    constructor ()
      ensures keys == map[]
    {
      keys := map[];
    }

    method SetIfNotExists(key: Key, value: Entry, ttlSeconds: nat, now: nat) returns (stored: bool)
      modifies this
      ensures stored == Get(old(keys), key, now).None?
      ensures keys == if stored then SetEx(old(keys), key, ttlSeconds, value, now) else old(keys)
    {
      stored := Get(keys, key, now).None?;
      if stored {
        keys := SetEx(keys, key, ttlSeconds, value, now);
      }
    }

    method Acquire(key: Key, now: nat) returns (o: Outcome)
      modifies this
      ensures (keys, o) == GetOrLock(old(keys), key, now)
    {
      var existing := Get(keys, key, now);
      if existing.Some? {
        match existing.value {
          case Processing => return Conflict;
          case Completed(response) => return Cached(response);
        }
      }
      // Run alone the lock cannot be lost between the two commands; losing it is the `Reread` step above.
      var acquired := SetIfNotExists(key, Processing, PROCESSING_TTL_S, now);
      return Started;
    }

    /** The verify handler: `verified` is what the verification returns or throws, `done` when it does. */
    method HandleVerify(key: Key, started: nat, done: nat, verified: Option<Response>)
      returns (r: Result<Response, HandlerError>)
      requires started <= done
      modifies this
      ensures (keys, r) == Handled(old(keys), key, started, done, verified)
    {
      var o := Acquire(key, started);
      match o {
        case Cached(response) =>
          return Ok(response);
        case Started =>
          if verified.Some? {
            keys := SetEx(keys, key, COMPLETED_TTL_S, Completed(verified.value), done);
            assert keys == SetEx(old(keys), key, COMPLETED_TTL_S, Completed(verified.value), done);
            return Ok(verified.value);
          }
          keys := keys - {key};
          assert keys == old(keys) - {key};
          return Err(HandlerFailed);
        case _ =>
          return Err(IdempotencyConflict);
      }
    }
  }
}
