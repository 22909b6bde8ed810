/**
 * Access tokens of one user against the revocation marker. A token carries only its issue time in whole seconds
 * (`iat`, section 4.1.6 of RFC 7519); the marker holds a time in milliseconds and expires on its own.
 */
module AccessTokens {
  import opened Sequences

  type CallId = nat

  const ACCESS_TTL_S := 900
  const CLOCK_TOLERANCE_S := 5
  const MARKER_TTL_MS := 604800 * 1000

  /** A stored revocation time and the moment its key expires, both in milliseconds. */
  datatype Marker = Marker(at: nat, expiresAt: nat)

  /** `pending`: revocations that have read the clock but whose marker is not written yet. */
  datatype State = State(now: nat, marker: Option<Marker>, pending: map<CallId, nat>)

  datatype Step = Stamp(call: CallId) | Write(call: CallId) | Tick(ms: nat)

  /** `iat` of a token signed at a time in milliseconds. */
  function IssuedAt(ms: nat): nat {
    ms / 1000
  }

  /** Past `exp` (section 4.1.4 of RFC 7519) by more than the tolerance. */
  predicate Expired(now: nat, iat: nat) {
    now / 1000 >= iat + ACCESS_TTL_S + CLOCK_TOLERANCE_S
  }

  /** `isUserRevoked`; a zero `iat` reads as missing. */
  predicate Revoked(s: State, iat: nat) {
    s.marker.Some? && s.now < s.marker.value.expiresAt && (iat == 0 || iat * 1000 < s.marker.value.at)
  }

  predicate Accepted(s: State, iat: nat) {
    !Expired(s.now, iat) && !Revoked(s, iat)
  }

  predicate Enabled(s: State, step: Step) {
    match step
    case Stamp(call) => call !in s.pending
    case Write(call) => call in s.pending
    case Tick(_) => true
  }

  function Next(s: State, step: Step): State
    requires Enabled(s, step)
  {
    match step
    case Stamp(call) => s.(pending := s.pending[call := s.now])
    case Write(call) =>
      s.(marker := Some(Marker(s.pending[call], s.now + MARKER_TTL_MS)), pending := s.pending - {call})
    case Tick(ms) => s.(now := s.now + ms)
  }

  ghost predicate StepAt(states: seq<State>, steps: seq<Step>, i: nat)
    requires i < |steps| && i + 1 < |states|
  {
    Enabled(states[i], steps[i]) && states[i + 1] == Next(states[i], steps[i])
  }

  ghost predicate IsRun(states: seq<State>, steps: seq<Step>) {
    |states| == |steps| + 1 && forall i :: 0 <= i < |steps| ==> StepAt(states, steps, i)
  }

  /** The token is refused now and in every continuation. */
  ghost predicate NeverAcceptedAgain(s: State, iat: nat) {
    forall states: seq<State>, steps: seq<Step> :: IsRun(states, steps) && states[0] == s ==>
      !Accepted(states[|states| - 1], iat)
  }

  /** A revocation stamped no later than the token's second has not written its marker yet. */
  ghost predicate OlderStampPending(s: State, iat: nat) {
    exists call :: call in s.pending && s.pending[call] <= iat * 1000
  }

  /** What keeps a token refused: a marker past its second that outlives it, and only newer markers to come. */
  ghost predicate Guarded(s: State, iat: nat) {
    || Expired(s.now, iat)
    || (&& s.marker.Some? && s.now > iat * 1000
        && s.marker.value.expiresAt >= (iat + ACCESS_TTL_S + CLOCK_TOLERANCE_S) * 1000
        && (iat == 0 || (s.marker.value.at > iat * 1000 && !OlderStampPending(s, iat))))
  }

  lemma GuardedRefuses(s: State, iat: nat)
    requires Guarded(s, iat)
    ensures !Accepted(s, iat)
  {
  }

  lemma StepKeepsGuarded(s: State, step: Step, iat: nat)
    requires Guarded(s, iat) && Enabled(s, step)
    ensures Guarded(Next(s, step), iat)
  {
    var t := Next(s, step);
    if !Expired(s.now, iat) && iat > 0 {
      forall call | call in t.pending ensures t.pending[call] > iat * 1000 {
        if call in s.pending { assert !(s.pending[call] <= iat * 1000); }
      }
      if step.Write? { assert !(s.pending[step.call] <= iat * 1000); }
    }
  }

  lemma {:induction false} GuardedRun(states: seq<State>, steps: seq<Step>, iat: nat, k: nat)
    requires IsRun(states, steps) && Guarded(states[0], iat) && k < |states|
    ensures Guarded(states[k], iat)
  {
    if k > 0 {
      GuardedRun(states, steps, iat, k - 1);
      assert StepAt(states, steps, k - 1);
      StepKeepsGuarded(states[k - 1], steps[k - 1], iat);
    }
  }

  /**
   * Once a revocation stamped after the token's second has been written, the token is refused in every
   * continuation if and only if no revocation stamped earlier is still to be written over it. (A token that is
   * expired, or that has a zero `iat`, is refused regardless.)
   */
  lemma RevokedTokenStaysRefusedIff(s: State, call: CallId, iat: nat)
    requires Enabled(s, Write(call)) && iat * 1000 < s.pending[call] <= s.now
    ensures var t := Next(s, Write(call));
      NeverAcceptedAgain(t, iat) <==> (Expired(t.now, iat) || iat == 0 || !OlderStampPending(t, iat))
  {
    var t := Next(s, Write(call));
    if Expired(t.now, iat) || iat == 0 || !OlderStampPending(t, iat) {
      assert Guarded(t, iat);
      forall states: seq<State>, steps: seq<Step> | IsRun(states, steps) && states[0] == t
        ensures !Accepted(states[|states| - 1], iat)
      {
        GuardedRun(states, steps, iat, |states| - 1);
        GuardedRefuses(states[|states| - 1], iat);
      }
    } else {
      var older :| older in t.pending && t.pending[older] <= iat * 1000;
      var states, steps := [t, Next(t, Write(older))], [Write(older)];
      assert StepAt(states, steps, 0) && IsRun(states, steps) && states[0] == t;
      assert Accepted(states[|states| - 1], iat);
    }
  }

  /**
   * Revocations run one at a time: a token issued strictly before a revocation is never accepted once it is done.
   * The marker's seven days outlive the token's fifteen minutes and tolerance, and later markers only grow.
   */
  lemma IssuedBeforeRevocationIsNeverAccepted(now: nat, marker: Option<Marker>, issued: nat)
    requires issued < now
    ensures var revoked := State(now, Some(Marker(now, now + MARKER_TTL_MS)), map[]);
      && Next(Next(State(now, marker, map[]), Stamp(0)), Write(0)) == revoked
      && NeverAcceptedAgain(revoked, IssuedAt(issued))
  {
    var stamped := Next(State(now, marker, map[]), Stamp(0));
    RevokedTokenStaysRefusedIff(stamped, 0, IssuedAt(issued));
    assert stamped.pending - {0} == map[];
    assert !OlderStampPending(Next(stamped, Write(0)), IssuedAt(issued));
  }

  /**
   * A token issued at or after the revocation is refused by its marker only when both fall in the same second
   * and the revocation is not on the second's first millisecond.
   */
  lemma IssuedAfterRevocationRefusedIffSameSecond(s: State, issued: nat)
    requires s.marker.Some? && s.now < s.marker.value.expiresAt
    requires s.marker.value.at <= issued && IssuedAt(issued) > 0
    ensures Revoked(s, IssuedAt(issued)) <==>
      IssuedAt(issued) == IssuedAt(s.marker.value.at) && s.marker.value.at % 1000 != 0
  {
    var at := s.marker.value.at;
    assert at == (at / 1000) * 1000 + at % 1000;
    assert issued / 1000 >= at / 1000;
  }

  /** Without a marker a token is accepted for fifteen minutes and five seconds, counted in whole seconds. */
  lemma UnrevokedTokenLifetime(now: nat, issued: nat)
    requires issued <= now
    ensures Accepted(State(now, None, map[]), IssuedAt(issued)) <==> now / 1000 - issued / 1000 < 905
  {
  }

  /** A marker stops refusing anything once its seven days are over. */
  lemma MarkerExpires(s: State, call: CallId, later: nat, iat: nat)
    requires Enabled(s, Write(call))
    ensures var t := Next(s, Write(call)).(now := later);
      later >= s.now + 604800000 ==> (Accepted(t, iat) <==> later / 1000 < iat + 905)
  {
  }
}
