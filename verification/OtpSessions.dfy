/**
 * One-time-password sessions: creation by `sendOtp`, the atomic verification script, and their keys in Redis.
 */
module OtpSessions {
  import opened Sequences
  import opened Redis

  type SessionId = nat
  type Phone = nat
  type Code = nat

  const EXPIRY_S := 300
  const MAX_ATTEMPTS := 5
  const COOLDOWN_S := 60
  const LOCK_S := 900
  const VERIFIED_TTL_S := 60

  datatype Status = Active | Verified | Locked

  datatype Session = Session(otp: Code, phone: Phone, status: Status, lockedUntil: Option<nat>, expiresAt: nat)

  datatype Keys = Keys(sessions: map<SessionId, Timed<Session>>, attempts: map<SessionId, Timed<nat>>,
                       current: map<Phone, Timed<SessionId>>, cooldown: map<Phone, Timed<bool>>)

  const NO_KEYS := Keys(map[], map[], map[], map[])

  datatype VerifyResult =
    | Success(session: Session)
    | AlreadyVerified
    | SessionNotFound
    | SessionLocked(until: nat)
    | OtpExpired
    | MaxAttempts(until: nat)
    | InvalidOtp

  // ---------- The verification script

  /** Seconds left until the session expires, rounded up. */
  function RemainingSeconds(expiresAt: nat, now: nat): nat {
    if expiresAt <= now then 0 else (expiresAt - now + 999) / 1000
  }

  /** Steps 4 to 7, on a session that is neither verified nor under lock. */
  function VerifyOpen(k: Keys, id: SessionId, session: Session, otp: Code, now: nat): (Keys, VerifyResult) {
    if now > session.expiresAt then (k, OtpExpired)
    else
      var (attempts, count) := Incr(k.attempts, id, LOCK_S, now);
      if session.otp != otp then
        if count >= MAX_ATTEMPTS then
          var until := now + LOCK_S * 1000;
          (k.(attempts := attempts,
              sessions := SetEx(k.sessions, id, LOCK_S, session.(status := Locked, lockedUntil := Some(until)), now)),
           MaxAttempts(until))
        else
          var ttl := RemainingSeconds(session.expiresAt, now);
          (k.(attempts := attempts,
              sessions := if ttl > 0 then SetEx(k.sessions, id, ttl, session, now) else k.sessions),
           InvalidOtp)
      else
        var done := session.(status := Verified);
        (k.(attempts := attempts - {id}, sessions := SetEx(k.sessions, id, VERIFIED_TTL_S, done, now)), Success(done))
  }

  function Verify(k: Keys, id: SessionId, otp: Code, now: nat): (Keys, VerifyResult) {
    match Get(k.sessions, id, now)
    case None => (k, SessionNotFound)
    case Some(session) =>
      if session.status.Verified? then (k, AlreadyVerified)
      else if session.status.Locked? then
        if session.lockedUntil.Some? && now < session.lockedUntil.value then
          (k, SessionLocked(session.lockedUntil.value))
        else
          VerifyOpen(k.(attempts := k.attempts - {id}), id, session.(status := Active, lockedUntil := None), otp, now)
      else VerifyOpen(k, id, session, otp, now)
  }

  /** The script compared the code exactly when it reports a match, a mismatch, or the mismatch that locks. */
  predicate Compared(r: VerifyResult) {
    r.Success? || r.InvalidOtp? || r.MaxAttempts?
  }

  // ---------- Other commands on the keys

  function NewSession(otp: Code, phone: Phone, now: nat): Session {
    Session(otp, phone, Active, None, now + EXPIRY_S * 1000)
  }

  function Store(k: Keys, id: SessionId, session: Session, now: nat): Keys {
    k.(sessions := SetEx(k.sessions, id, EXPIRY_S, session, now))
  }

  /** One DEL of a session and its attempt counter. */
  function Discard(k: Keys, id: SessionId): Keys {
    k.(sessions := k.sessions - {id}, attempts := k.attempts - {id})
  }

  // ---------- Timed runs

  /** What can happen to sessions: ids are random UUIDs, so each is created at most once; time passes between steps. */
  datatype Step =
    | Create(id: SessionId, otp: Code, phone: Phone)
    | Invalidate(id: SessionId)
    | Check(id: SessionId, otp: Code)
    | Tick(ms: nat)

  datatype State = State(keys: Keys, now: nat, created: map<SessionId, Session>)

  const START := State(NO_KEYS, 0, map[])

  predicate Enabled(s: State, step: Step) {
    step.Create? ==> step.id !in s.created
  }

  function Next(s: State, step: Step): State {
    match step
    case Create(id, otp, phone) =>
      var session := NewSession(otp, phone, s.now);
      s.(keys := Store(s.keys, id, session, s.now), created := s.created[id := session])
    case Invalidate(id) => s.(keys := Discard(s.keys, id))
    case Check(id, otp) => s.(keys := Verify(s.keys, id, otp, s.now).0)
    case Tick(ms) => s.(now := s.now + ms)
  }

  ghost predicate StepAt(states: seq<State>, steps: seq<Step>, i: nat)
    requires i < |steps| && i + 1 < |states|
  {
    Enabled(states[i], steps[i]) && states[i + 1] == Next(states[i], steps[i])
  }

  ghost predicate IsRun(states: seq<State>, steps: seq<Step>) {
    && |states| == |steps| + 1 && states[0] == START
    && forall i :: 0 <= i < |steps| ==> StepAt(states, steps, i)
  }

  /** What the session's checks have reported up to step k. */
  datatype Tally = Tally(compared: nat, successes: nat, locked: bool)

  function TallyStep(t: Tally, s: State, step: Step, id: SessionId): Tally {
    if step.Check? && step.id == id then
      var r := Verify(s.keys, id, step.otp, s.now).1;
      Tally(t.compared + (if Compared(r) then 1 else 0), t.successes + (if r.Success? then 1 else 0),
            t.locked || r.MaxAttempts?)
    else t
  }

  function TallyOf(states: seq<State>, steps: seq<Step>, id: SessionId, k: nat): Tally
    requires k <= |steps| && |states| == |steps| + 1
  {
    if k == 0 then Tally(0, 0, false)
    else TallyStep(TallyOf(states, steps, id, k - 1), states[k - 1], steps[k - 1], id)
  }

  // ---------- The session invariant

  ghost predicate Fits(s: State, id: SessionId, t: Tally) {
    && (id !in s.created ==> id !in s.keys.sessions && id !in s.keys.attempts && t == Tally(0, 0, false))
    && t.compared <= MAX_ATTEMPTS && t.successes <= 1 && (t.locked ==> t.successes == 0)
    && (id in s.created && id in s.keys.sessions ==> EntryFits(s, id, t))
  }

  /** While the session key is there it has the created session's code and expiry, and its status tells the history. */
  ghost predicate EntryFits(s: State, id: SessionId, t: Tally)
    requires id in s.created && id in s.keys.sessions
  {
    var session, origin := s.keys.sessions[id].value, s.created[id];
    && session.otp == origin.otp && session.phone == origin.phone && session.expiresAt == origin.expiresAt
    && session.expiresAt <= s.now + EXPIRY_S * 1000
    && match session.status
       case Active =>
         && t.successes == 0 && !t.locked && t.compared < MAX_ATTEMPTS
         && (if id in s.keys.attempts
             then s.keys.attempts[id].value == t.compared && s.keys.attempts[id].expiresAt > session.expiresAt
             else t.compared == 0)
       case Verified => !t.locked
       case Locked => t.locked && session.lockedUntil.Some? && session.lockedUntil.value > session.expiresAt
  }

  lemma CheckOpenKeepsFits(s: State, id: SessionId, otp: Code, t: Tally)
    requires Fits(s, id, t) && id in s.created
    requires var g := Get(s.keys.sessions, id, s.now); g.Some? && g.value.status.Active?
    ensures Fits(Next(s, Check(id, otp)), id, TallyStep(t, s, Check(id, otp), id))
  {
  }

  /** Under a lock nothing is compared: when the lock has run out the session has long expired. */
  lemma CheckLockedComparesNothing(s: State, id: SessionId, otp: Code, t: Tally)
    requires Fits(s, id, t) && id in s.created
    requires var g := Get(s.keys.sessions, id, s.now); g.Some? && g.value.status.Locked?
    ensures !Compared(Verify(s.keys, id, otp, s.now).1)
    ensures Verify(s.keys, id, otp, s.now).0.sessions == s.keys.sessions
  {
  }

  lemma StepKeepsFits(s: State, step: Step, id: SessionId, t: Tally)
    requires Fits(s, id, t) && Enabled(s, step)
    ensures Fits(Next(s, step), id, TallyStep(t, s, step, id))
  {
    if step.Check? && step.id == id && id in s.created {
      var g := Get(s.keys.sessions, id, s.now);
      if g.Some? && g.value.status.Active? {
        CheckOpenKeepsFits(s, id, step.otp, t);
      } else if g.Some? && g.value.status.Locked? {
        CheckLockedComparesNothing(s, id, step.otp, t);
      }
    }
  }

  lemma {:induction false} RunFits(states: seq<State>, steps: seq<Step>, id: SessionId, k: nat)
    requires IsRun(states, steps) && k <= |steps|
    ensures Fits(states[k], id, TallyOf(states, steps, id, k))
  {
    if k > 0 {
      RunFits(states, steps, id, k - 1);
      assert StepAt(states, steps, k - 1);
      StepKeepsFits(states[k - 1], steps[k - 1], id, TallyOf(states, steps, id, k - 1));
    }
  }

  /**
   * Over any timed run a session compares at most five codes and succeeds at most once, and a session that was
   * ever locked never succeeds.
   */
  lemma SessionBounds(states: seq<State>, steps: seq<Step>, id: SessionId)
    requires IsRun(states, steps)
    ensures var t := TallyOf(states, steps, id, |steps|);
      t.compared <= MAX_ATTEMPTS && t.successes <= 1 && (t.locked ==> t.successes == 0)
  {
    RunFits(states, steps, id, |steps|);
  }

  /** A success is for the code that was sent, within five minutes of sending it, and is the session's first. */
  lemma SuccessIsTimelyAndGenuine(states: seq<State>, steps: seq<Step>, k: nat)
    requires IsRun(states, steps) && k < |steps| && steps[k].Check?
    requires Verify(states[k].keys, steps[k].id, steps[k].otp, states[k].now).1.Success?
    ensures var id := steps[k].id;
      && id in states[k].created
      && steps[k].otp == states[k].created[id].otp
      && states[k].now <= states[k].created[id].expiresAt <= states[k].now + EXPIRY_S * 1000
      && TallyOf(states, steps, id, k).successes == 0 && !TallyOf(states, steps, id, k).locked
  {
    var id := steps[k].id;
    RunFits(states, steps, id, k);
    var s := states[k];
    var t := TallyOf(states, steps, id, k);
    if s.keys.sessions[id].value.status.Locked? {
      CheckLockedComparesNothing(s, id, steps[k].otp, t);
    }
  }

  // ---------- sendOtp and verifyOtp

  datatype SendError = IpRateLimited | Cooldown | PhoneRateLimited

  /** Drops the session registered for the phone, if any. */
  function InvalidateExisting(k: Keys, phone: Phone, now: nat): Keys {
    match Get(k.current, phone, now)
    case Some(id) => Discard(k, id).(current := k.current - {phone})
    case None => k
  }

  function Send(k: Keys, phone: Phone, id: SessionId, otp: Code, ipAllowed: bool, phoneAllowed: bool, now: nat)
    : (Keys, Result<SessionId, SendError>)
  {
    if !ipAllowed then (k, Err(IpRateLimited))
    else if Get(k.cooldown, phone, now).Some? then (k, Err(Cooldown))
    else if !phoneAllowed then (k, Err(PhoneRateLimited))
    else
      var stored := Store(InvalidateExisting(k, phone, now), id, NewSession(otp, phone, now), now);
      (stored.(current := SetEx(stored.current, phone, EXPIRY_S, id, now),
               cooldown := SetEx(stored.cooldown, phone, COOLDOWN_S, true, now)), Ok(id))
  }

  /** To sessions and attempt counters a send is an invalidation, if the phone had a session, and then a creation. */
  lemma SendIsInvalidateThenCreate(s: State, phone: Phone, id: SessionId, otp: Code)
    requires Enabled(s, Create(id, otp, phone))
    requires Send(s.keys, phone, id, otp, true, true, s.now).1.Ok?
    ensures var sent := Send(s.keys, phone, id, otp, true, true, s.now).0;
      var previous := Get(s.keys.current, phone, s.now);
      var before := if previous.Some? then Next(s, Invalidate(previous.value)) else s;
      var after := Next(before, Create(id, otp, phone));
      Enabled(before, Create(id, otp, phone))
      && sent.sessions == after.keys.sessions && sent.attempts == after.keys.attempts
  {
  }

  /** After a send, the session the phone had before can no longer be verified, and the new one accepts its code. */
  lemma SendReplacesSession(k: Keys, phone: Phone, id: SessionId, otp: Code, now: nat, guess: Code)
    requires Send(k, phone, id, otp, true, true, now).1.Ok? && id !in k.attempts
    ensures var sent := Send(k, phone, id, otp, true, true, now).0;
      && (var previous := Get(k.current, phone, now);
          previous.Some? && previous.value != id ==> Verify(sent, previous.value, guess, now).1 == SessionNotFound)
      && Verify(sent, id, otp, now).1.Success?
      && (guess != otp ==> Verify(sent, id, guess, now).1 == InvalidOtp)
  {
  }

  /** A send goes through exactly when both rate limits allow it and no cooldown key is live; refusals are in order. */
  lemma SendCases(k: Keys, phone: Phone, id: SessionId, otp: Code, ipAllowed: bool, phoneAllowed: bool, now: nat)
    ensures var (after, r) := Send(k, phone, id, otp, ipAllowed, phoneAllowed, now);
            var cooling := phone in k.cooldown && now < k.cooldown[phone].expiresAt;
      && (r == Ok(id) <==> ipAllowed && !cooling && phoneAllowed)
      && (r == Err(IpRateLimited) <==> !ipAllowed)
      && (r == Err(Cooldown) <==> ipAllowed && cooling)
      && (r == Err(PhoneRateLimited) <==> ipAllowed && !cooling && !phoneAllowed)
      && (r.Err? ==> after == k)
  {
  }

  /** After a send the same phone is refused for sixty seconds, and no longer. */
  lemma SecondSendWaitsAMinute(k: Keys, phone: Phone, id: SessionId, otp: Code, now: nat,
                               later: nat, again: SessionId, other: Code)
    requires Send(k, phone, id, otp, true, true, now).1.Ok? && now <= later
    ensures var sent := Send(k, phone, id, otp, true, true, now).0;
            var second := Send(sent, phone, again, other, true, true, later);
      && (later < now + 60000 ==> second == (sent, Err(Cooldown)))
      && (later >= now + 60000 ==> second.1 == Ok(again))
  {
  }

  /** A sent session lives for five minutes: at the last millisecond its code is still good, and then it is gone. */
  lemma SentSessionLivesFiveMinutes(k: Keys, phone: Phone, id: SessionId, otp: Code, now: nat, later: nat)
    requires Send(k, phone, id, otp, true, true, now).1.Ok? && now <= later
    ensures var sent := Send(k, phone, id, otp, true, true, now).0;
      && sent.sessions[id].value == Session(otp, phone, Active, None, now + 300000)
      && (later < now + 300000 ==> Verify(sent, id, otp, later).1.Success?)
      && (later >= now + 300000 ==> Verify(sent, id, otp, later).1 == SessionNotFound)
  {
  }

  /** What the attempt counter reads. */
  function Attempts(k: Keys, id: SessionId, now: nat): nat {
    if id in k.attempts && now < k.attempts[id].expiresAt then k.attempts[id].value else 0
  }

  /**
   * The answer of the script to an active, unexpired session: success exactly for the session's own code, the lock
   * exactly on a wrong code after four or more attempts, and otherwise one more attempt counted.
   */
  lemma ActiveSessionCases(k: Keys, id: SessionId, otp: Code, now: nat)
    requires id in k.sessions && now < k.sessions[id].expiresAt && k.sessions[id].value.status.Active?
    requires now < k.sessions[id].value.expiresAt
    ensures var session := k.sessions[id].value;
            var (after, r) := Verify(k, id, otp, now);
      && (r.Success? <==> otp == session.otp)
      && (r == MaxAttempts(now + 900000) <==> otp != session.otp && Attempts(k, id, now) >= 4)
      && (r == InvalidOtp <==> otp != session.otp && Attempts(k, id, now) < 4)
      && (r.Success? ==>
            && after.sessions == k.sessions[id := Timed(session.(status := Verified), now + 60000)]
            && after.attempts == k.attempts - {id})
      && (r == InvalidOtp ==>
            && Attempts(after, id, now) == Attempts(k, id, now) + 1
            && after.sessions[id].value == session
            && session.expiresAt <= after.sessions[id].expiresAt < session.expiresAt + 1000
            && after.attempts[id].expiresAt ==
                 if Attempts(k, id, now) == 0 && !(id in k.attempts && now < k.attempts[id].expiresAt) then now + 900000
                 else k.attempts[id].expiresAt)
      && (r.MaxAttempts? ==>
            var locked := session.(status := Locked, lockedUntil := Some(now + 900000));
            after.sessions == k.sessions[id := Timed(locked, now + 900000)])
  {
  }

  /** The answers to every other session. */
  lemma OtherSessionCases(k: Keys, id: SessionId, otp: Code, now: nat)
    ensures var (after, r) := Verify(k, id, otp, now);
      && (id !in k.sessions || k.sessions[id].expiresAt <= now ==> (after, r) == (k, SessionNotFound))
      && (id in k.sessions && now < k.sessions[id].expiresAt ==>
            var session := k.sessions[id].value;
            && (session.status.Verified? ==> (after, r) == (k, AlreadyVerified))
            && (session.status.Active? && now > session.expiresAt ==> (after, r) == (k, OtpExpired))
            && (session.status.Locked? && session.lockedUntil.Some? && now < session.lockedUntil.value ==>
                  (after, r) == (k, SessionLocked(session.lockedUntil.value))))
  {
  }

  class OtpService {
    var keys: Keys

    constructor ()
      ensures keys == NO_KEYS
    {
      keys := NO_KEYS;
    }

    /** The rate-limit verdicts come from the request counters. */
    method SendOtp(phone: Phone, id: SessionId, otp: Code, ipAllowed: bool, phoneAllowed: bool, now: nat)
      returns (r: Result<SessionId, SendError>)
      modifies this
      ensures (keys, r) == Send(old(keys), phone, id, otp, ipAllowed, phoneAllowed, now)
    {
      if !ipAllowed {
        return Err(IpRateLimited);
      }
      if Get(keys.cooldown, phone, now).Some? {
        return Err(Cooldown);
      }
      if !phoneAllowed {
        return Err(PhoneRateLimited);
      }
      var existing := Get(keys.current, phone, now);
      if existing.Some? {
        keys := Discard(keys, existing.value).(current := keys.current - {phone});
      }
      keys := Store(keys, id, NewSession(otp, phone, now), now);
      keys := keys.(current := SetEx(keys.current, phone, EXPIRY_S, id, now));
      keys := keys.(cooldown := SetEx(keys.cooldown, phone, COOLDOWN_S, true, now));
      return Ok(id);
    }

    /** The script, as one atomic update of the keys. */
    method AtomicVerifyOtp(id: SessionId, otp: Code, now: nat) returns (r: VerifyResult)
      modifies this
      ensures (keys, r) == Verify(old(keys), id, otp, now)
    {
      var stored := Get(keys.sessions, id, now);
      if stored.None? {
        return SessionNotFound;
      }
      var session := stored.value;
      if session.status.Verified? {
        return AlreadyVerified;
      }
      if session.status.Locked? {
        if session.lockedUntil.Some? && now < session.lockedUntil.value {
          return SessionLocked(session.lockedUntil.value);
        }
        session := session.(status := Active, lockedUntil := None);
        keys := keys.(attempts := keys.attempts - {id});
      }
      if now > session.expiresAt {
        return OtpExpired;
      }
      var count := 1;
      if id in keys.attempts && now < keys.attempts[id].expiresAt {
        count := keys.attempts[id].value + 1;
        keys := keys.(attempts := keys.attempts[id := Timed(count, keys.attempts[id].expiresAt)]);
      } else {
        keys := keys.(attempts := keys.attempts[id := Timed(1, now + LOCK_S * 1000)]);
      }
      if session.otp != otp {
        if count >= MAX_ATTEMPTS {
          var until := now + LOCK_S * 1000;
          session := session.(status := Locked, lockedUntil := Some(until));
          keys := keys.(sessions := keys.sessions[id := Timed(session, now + LOCK_S * 1000)]);
          return MaxAttempts(until);
        }
        var ttl := RemainingSeconds(session.expiresAt, now);
        if ttl > 0 {
          keys := keys.(sessions := keys.sessions[id := Timed(session, now + ttl * 1000)]);
        }
        return InvalidOtp;
      }
      session := session.(status := Verified);
      keys := keys.(sessions := keys.sessions[id := Timed(session, now + VERIFIED_TTL_S * 1000)]);
      keys := keys.(attempts := keys.attempts - {id});
      return Success(session);
    }
  }
}
