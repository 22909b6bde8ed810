/**
 * Refresh-token rotation (section 10.4 of RFC 6749): the token table, the rotation call, and the protocol in which
 * any number of calls interleave at their database statements.
 */
module RefreshTokens {
  import opened Sequences
  import Access = AccessTokens

  type TokenId = nat
  type UserId = nat
  type FamilyId = nat
  type CallId = nat

  /** A stored token. `parent` is history: the token whose rotation issued this one, none for a login. */
  datatype TokenRow = TokenRow(user: UserId, family: FamilyId, hash: nat, isValid: bool, usedAt: Option<nat>,
                               expiresAt: nat, parent: Option<TokenId>)

  type Rows = map<TokenId, TokenRow>

  const REFRESH_TTL_MS := 604800 * 1000

  // ---------- Repository statements

  function MarkAsUsed(rows: Rows, id: TokenId, now: nat): (Rows, nat) {
    if id in rows && rows[id].usedAt.None? then (rows[id := rows[id].(usedAt := Some(now))], 1) else (rows, 0)
  }

  function Revoke(rows: Rows, id: TokenId): Rows {
    if id in rows then rows[id := rows[id].(isValid := false)] else rows
  }

  function RevokeFamily(rows: Rows, family: FamilyId): Rows {
    map id | id in rows :: if rows[id].family == family then rows[id].(isValid := false) else rows[id]
  }

  function RevokeAllForUser(rows: Rows, user: UserId): Rows {
    map id | id in rows :: if rows[id].user == user then rows[id].(isValid := false) else rows[id]
  }

  function NewRow(user: UserId, family: FamilyId, hash: nat, now: nat, parent: Option<TokenId>): TokenRow {
    TokenRow(user, family, hash, true, None, now + REFRESH_TTL_MS, parent)
  }

  // ---------- One call, step by step

  /** Where a rotation call stands between two statements. */
  datatype Phase =
    | Checked(token: TokenId, user: UserId, family: FamilyId)  // row read: valid, unexpired, unused
    | Marked(token: TokenId, user: UserId, family: FamilyId)   // won the mark, new pair not stored yet
    | MustRevokeFamily(user: UserId, family: FamilyId)         // found the token used, or lost the mark
    | MustRevokeUser(user: UserId, family: FamilyId)           // family revoked, user's sessions not yet

  datatype State = State(rows: Rows, calls: map<CallId, Phase>, now: nat)

  datatype Step =
    | Login(id: TokenId, family: FamilyId, user: UserId, hash: nat)
    | Read(call: CallId, id: TokenId, hash: nat)
    | Mark(call: CallId)
    | Issue(call: CallId, newId: TokenId, hash: nat)
    | DoRevokeFamily(call: CallId)
    | DoRevokeUser(call: CallId)
    | Logout(id: TokenId)
    | ForceLogout(user: UserId)
    | Tick(ms: nat)

  /** A row that passes the checks made before the reuse check. */
  predicate Acceptable(rows: Rows, id: TokenId, hash: nat, now: nat) {
    id in rows && rows[id].hash == hash && rows[id].isValid && rows[id].expiresAt >= now
  }

  /** New ids and families are random UUIDs: never seen before. */
  predicate Enabled(s: State, step: Step) {
    match step
    case Login(id, family, _, _) => id !in s.rows && forall t :: t in s.rows ==> s.rows[t].family != family
    case Read(call, _, _) => call !in s.calls
    case Mark(call) => call in s.calls && s.calls[call].Checked?
    case Issue(call, newId, _) => call in s.calls && s.calls[call].Marked? && newId !in s.rows
    case DoRevokeFamily(call) => call in s.calls && s.calls[call].MustRevokeFamily?
    case DoRevokeUser(call) => call in s.calls && s.calls[call].MustRevokeUser?
    case _ => true
  }

  function Next(s: State, step: Step): State
    requires Enabled(s, step)
  {
    match step
    case Login(id, family, user, hash) => s.(rows := s.rows[id := NewRow(user, family, hash, s.now, None)])
    case Read(call, id, hash) =>
      if !Acceptable(s.rows, id, hash, s.now) then s
      else
        var row := s.rows[id];
        s.(calls := s.calls[call := if row.usedAt.Some? then MustRevokeFamily(row.user, row.family)
                                    else Checked(id, row.user, row.family)])
    case Mark(call) =>
      var c := s.calls[call];
      var (rows, count) := MarkAsUsed(s.rows, c.token, s.now);
      if count == 0 then s.(calls := s.calls[call := MustRevokeFamily(c.user, c.family)])
      else s.(rows := rows, calls := s.calls[call := Marked(c.token, c.user, c.family)])
    case Issue(call, newId, hash) =>
      var c := s.calls[call];
      s.(rows := s.rows[newId := NewRow(c.user, c.family, hash, s.now, Some(c.token))], calls := s.calls - {call})
    case DoRevokeFamily(call) =>
      var c := s.calls[call];
      s.(rows := RevokeFamily(s.rows, c.family), calls := s.calls[call := MustRevokeUser(c.user, c.family)])
    case DoRevokeUser(call) =>
      s.(rows := RevokeAllForUser(s.rows, s.calls[call].user), calls := s.calls - {call})
    case Logout(id) => s.(rows := Revoke(s.rows, id))
    case ForceLogout(user) => s.(rows := RevokeAllForUser(s.rows, user))
    case Tick(ms) => s.(now := s.now + ms)
  }

  ghost predicate StepAt(states: seq<State>, steps: seq<Step>, i: nat)
    requires i < |steps| && i + 1 < |states|
  {
    Enabled(states[i], steps[i]) && states[i + 1] == Next(states[i], steps[i])
  }

  ghost predicate IsRun(states: seq<State>, steps: seq<Step>) {
    |states| == |steps| + 1 && forall i :: 0 <= i < |steps| ==> StepAt(states, steps, i)
  }

  const EMPTY := State(map[], map[], 0)

  // ---------- The single chain

  /** What can still produce the family's next token: an unused token, or a call that has marked but not issued. */
  datatype Holder = Unused(id: TokenId) | InFlight(call: CallId)

  predicate Holds(s: State, family: FamilyId, h: Holder) {
    match h
    case Unused(id) => id in s.rows && s.rows[id].family == family && s.rows[id].usedAt.None?
    case InFlight(call) => call in s.calls && s.calls[call].Marked? && s.calls[call].family == family
  }

  function Holders(s: State, family: FamilyId): set<Holder> {
    (set id | id in s.rows && Holds(s, family, Unused(id)) :: Unused(id)) +
    (set call | call in s.calls && Holds(s, family, InFlight(call)) :: InFlight(call))
  }

  ghost predicate CallsFit(s: State) {
    forall call :: call in s.calls ==>
      var c := s.calls[call];
      (c.Checked? || c.Marked? ==>
        c.token in s.rows && s.rows[c.token].user == c.user && s.rows[c.token].family == c.family)
      && (c.Marked? ==> s.rows[c.token].usedAt.Some?)
  }

  ghost predicate OneHolder(s: State) {
    forall family, a, b :: Holds(s, family, a) && Holds(s, family, b) ==> a == b
  }

  ghost predicate ParentsFit(s: State) {
    forall id :: id in s.rows && s.rows[id].parent.Some? ==>
      var p := s.rows[id].parent.value;
      && p in s.rows && s.rows[p].usedAt.Some?
      && s.rows[p].family == s.rows[id].family && s.rows[p].user == s.rows[id].user
  }

  ghost predicate OneSuccessor(s: State) {
    && (forall a, b :: a in s.rows && b in s.rows && s.rows[a].parent.Some? && s.rows[a].parent == s.rows[b].parent ==>
          a == b)
    && (forall call, id :: call in s.calls && s.calls[call].Marked? && id in s.rows ==>
          s.rows[id].parent != Some(s.calls[call].token))
  }

  ghost predicate Inv(s: State) {
    CallsFit(s) && OneHolder(s) && ParentsFit(s) && OneSuccessor(s)
  }

  lemma StepKeepsCallsFit(s: State, step: Step)
    requires CallsFit(s) && Enabled(s, step)
    ensures CallsFit(Next(s, step))
  {
  }

  lemma StepKeepsParents(s: State, step: Step)
    requires CallsFit(s) && ParentsFit(s) && Enabled(s, step)
    ensures ParentsFit(Next(s, step))
  {
  }

  /** A holder after a step was one before it, or replaced one, or its family is new. */
  lemma HolderComesFrom(s: State, step: Step, family: FamilyId, h: Holder)
    requires CallsFit(s) && Enabled(s, step) && Holds(Next(s, step), family, h)
    ensures
      || Holds(s, family, h)
      || (step.Login? && step.family == family && h == Unused(step.id))
      || (step.Mark? && h == InFlight(step.call) && s.calls[step.call].family == family
            && Holds(s, family, Unused(s.calls[step.call].token))
            && !Holds(Next(s, step), family, Unused(s.calls[step.call].token)))
      || (step.Issue? && h == Unused(step.newId) && Holds(s, family, InFlight(step.call))
            && !Holds(Next(s, step), family, InFlight(step.call)))
  {
  }

  lemma StepKeepsOneHolder(s: State, step: Step)
    requires CallsFit(s) && OneHolder(s) && Enabled(s, step)
    ensures OneHolder(Next(s, step))
  {
    var t := Next(s, step);
    forall family, a, b | Holds(t, family, a) && Holds(t, family, b) ensures a == b {
      HolderComesFrom(s, step, family, a);
      HolderComesFrom(s, step, family, b);
    }
  }

  lemma MarkKeepsOneSuccessor(s: State, call: CallId)
    requires Inv(s) && Enabled(s, Mark(call))
    ensures OneSuccessor(Next(s, Mark(call)))
  {
    var t := Next(s, Mark(call));
    forall id | id in t.rows && t.calls[call].Marked? ensures t.rows[id].parent != Some(s.calls[call].token) {
      assert s.rows[s.calls[call].token].usedAt.None?;
    }
  }

  lemma IssueKeepsOneSuccessor(s: State, call: CallId, newId: TokenId, hash: nat)
    requires Inv(s) && Enabled(s, Issue(call, newId, hash))
    ensures OneSuccessor(Next(s, Issue(call, newId, hash)))
  {
    var t := Next(s, Issue(call, newId, hash));
    forall other | other in t.calls && t.calls[other].Marked? ensures t.calls[other].token != s.calls[call].token {
      assert Holds(s, s.calls[call].family, InFlight(call));
      assert Holds(s, s.calls[other].family, InFlight(other));
    }
  }

  lemma StepKeepsOneSuccessor(s: State, step: Step)
    requires Inv(s) && Enabled(s, step)
    ensures OneSuccessor(Next(s, step))
  {
    if step.Mark? {
      MarkKeepsOneSuccessor(s, step.call);
    } else if step.Issue? {
      IssueKeepsOneSuccessor(s, step.call, step.newId, step.hash);
    }
  }

  lemma {:induction false} ReachableInv(states: seq<State>, steps: seq<Step>, k: nat)
    requires IsRun(states, steps) && states[0] == EMPTY && k < |states|
    ensures Inv(states[k])
  {
    if k > 0 {
      ReachableInv(states, steps, k - 1);
      var s, step := states[k - 1], steps[k - 1];
      assert StepAt(states, steps, k - 1);
      StepKeepsCallsFit(s, step);
      StepKeepsOneHolder(s, step);
      StepKeepsParents(s, step);
      StepKeepsOneSuccessor(s, step);
    }
  }

  /**
   * Under every interleaving, a family's unused tokens plus the rotations that have marked but not yet issued
   * number at most one, and no token ever has two successors.
   */
  lemma SingleRotationChain(states: seq<State>, steps: seq<Step>, k: nat, family: FamilyId, a: TokenId, b: TokenId)
    requires IsRun(states, steps) && states[0] == EMPTY && k < |states|
    ensures |Holders(states[k], family)| <= 1
    ensures (a in states[k].rows && b in states[k].rows && states[k].rows[a].parent.Some?
      && states[k].rows[a].parent == states[k].rows[b].parent) ==> a == b
  {
    ReachableInv(states, steps, k);
    AtMostOne(Holders(states[k], family));
  }

  lemma AtMostOne(hs: set<Holder>)
    requires forall a, b :: a in hs && b in hs ==> a == b
    ensures |hs| <= 1
  {
    if h :| h in hs {
      assert hs == {h};
    }
  }

  // ---------- Rows only move one way

  predicate RowForward(before: TokenRow, after: TokenRow) {
    && after.user == before.user && after.family == before.family && after.hash == before.hash
    && after.expiresAt == before.expiresAt && after.parent == before.parent
    && (before.usedAt.Some? ==> after.usedAt == before.usedAt)
    && (!before.isValid ==> !after.isValid)
  }

  /** Rows are never removed; a used mark is never cleared or changed, an invalid row never becomes valid. */
  ghost predicate Forward(before: Rows, after: Rows) {
    forall id :: id in before ==> id in after && RowForward(before[id], after[id])
  }

  lemma StepMovesForward(s: State, step: Step)
    requires Enabled(s, step)
    ensures Forward(s.rows, Next(s, step).rows)
  {
  }

  lemma RunStepMovesForward(states: seq<State>, steps: seq<Step>, k: nat)
    requires IsRun(states, steps) && k < |steps|
    ensures Forward(states[k].rows, states[k + 1].rows)
  {
    assert StepAt(states, steps, k);
    StepMovesForward(states[k], steps[k]);
  }

  /** Over any stretch of any run. */
  lemma {:induction false} RunMovesForward(states: seq<State>, steps: seq<Step>, i: nat, j: nat)
    requires IsRun(states, steps) && i <= j < |states|
    ensures Forward(states[i].rows, states[j].rows)
    decreases j - i
  {
    if i < j {
      RunMovesForward(states, steps, i, j - 1);
      RunStepMovesForward(states, steps, j - 1);
      ForwardIsTransitive(states[i].rows, states[j - 1].rows, states[j].rows);
    }
  }

  lemma ForwardIsTransitive(a: Rows, b: Rows, c: Rows)
    requires Forward(a, b) && Forward(b, c)
    ensures Forward(a, c)
  {
  }

  // ---------- Reuse shuts the sessions down

  function FamiliesOf(rows: Rows, user: UserId): set<FamilyId> {
    set id | id in rows && rows[id].user == user :: rows[id].family
  }

  ghost predicate AllInvalid(rows: Rows, families: set<FamilyId>) {
    forall id :: id in rows && rows[id].family in families ==> !rows[id].isValid
  }

  /** Some rotation is past its read of a token that is still unused, or past its mark. */
  ghost predicate RotationInFlight(s: State, families: set<FamilyId>) {
    exists call :: call in s.calls && CanStillIssue(s, families, call)
  }

  ghost predicate CanStillIssue(s: State, families: set<FamilyId>, call: CallId)
    requires call in s.calls
  {
    var c := s.calls[call];
    || (c.Marked? && c.family in families)
    || (c.Checked? && c.family in families && c.token in s.rows && s.rows[c.token].usedAt.None?)
  }

  ghost predicate KnownFamilies(rows: Rows, families: set<FamilyId>) {
    forall f :: f in families ==> exists id :: id in rows && rows[id].family == f
  }

  ghost predicate Shut(s: State, families: set<FamilyId>) {
    AllInvalid(s.rows, families) && KnownFamilies(s.rows, families) && !RotationInFlight(s, families)
  }

  /** From here on, in every run, no token of these families is ever valid. */
  ghost predicate StaysShut(s: State, families: set<FamilyId>) {
    forall states: seq<State>, steps: seq<Step> :: IsRun(states, steps) && states[0] == s ==>
      AllInvalid(states[|states| - 1].rows, families)
  }

  lemma KnownFamiliesForward(before: Rows, after: Rows, families: set<FamilyId>)
    requires KnownFamilies(before, families) && Forward(before, after)
    ensures KnownFamilies(after, families)
  {
    forall f | f in families ensures exists id :: id in after && after[id].family == f {
      var id :| id in before && before[id].family == f;
      assert id in after && after[id].family == f;
    }
  }

  lemma NoOneIssues(s: State, families: set<FamilyId>, call: CallId)
    requires !RotationInFlight(s, families) && call in s.calls
    ensures !CanStillIssue(s, families, call)
  {
  }

  lemma StepKeepsShut(s: State, step: Step, families: set<FamilyId>)
    requires CallsFit(s) && Shut(s, families) && Enabled(s, step)
    ensures Shut(Next(s, step), families)
  {
    var t := Next(s, step);
    StepMovesForward(s, step);
    KnownFamiliesForward(s.rows, t.rows, families);
    if step.Issue? { NoOneIssues(s, families, step.call); }
    forall call | call in t.calls ensures !CanStillIssue(t, families, call) {
      if call in s.calls { NoOneIssues(s, families, call); }
    }
  }

  lemma {:induction false} ShutRun(states: seq<State>, steps: seq<Step>, families: set<FamilyId>, k: nat)
    requires IsRun(states, steps) && CallsFit(states[0]) && Shut(states[0], families) && k < |states|
    ensures Shut(states[k], families) && CallsFit(states[k])
  {
    if k > 0 {
      ShutRun(states, steps, families, k - 1);
      assert StepAt(states, steps, k - 1);
      StepKeepsShut(states[k - 1], steps[k - 1], families);
      StepKeepsCallsFit(states[k - 1], steps[k - 1]);
    }
  }

  /** An id no stored token has. */
  lemma FreshId(rows: Rows) returns (id: TokenId)
    ensures id !in rows
  {
    id := FreshAbove(rows.Keys);
    assert id !in rows.Keys;
  }

  lemma InFlightIssuesAValidToken(s: State, families: set<FamilyId>)
    requires CallsFit(s) && RotationInFlight(s, families)
    ensures !StaysShut(s, families)
  {
    var call :| call in s.calls && CanStillIssue(s, families, call);
    var id := FreshId(s.rows);
    var marked := if s.calls[call].Marked? then s else Next(s, Mark(call));
    assert marked.calls[call].Marked? && marked.calls[call].family in families && id !in marked.rows;
    var issued := Next(marked, Issue(call, id, 0));
    assert issued.rows[id].isValid && issued.rows[id].family in families;
    var steps := if s.calls[call].Marked? then [Issue(call, id, 0)] else [Mark(call), Issue(call, id, 0)];
    var states := if s.calls[call].Marked? then [s, issued] else [s, marked, issued];
    assert IsRun(states, steps) && states[0] == s;
    assert !AllInvalid(states[|states| - 1].rows, families);
  }

  /**
   * Whatever step revokes all of a user's tokens: they and all their descendants then stay invalid in every
   * continuation if and only if no rotation of that user is in flight at that moment.
   */
  lemma RevokedStaysShutIff(s: State, step: Step, user: UserId)
    requires CallsFit(s) && OneUserPerFamily(s.rows) && Enabled(s, step)
    requires Next(s, step).rows == RevokeAllForUser(s.rows, user)
    ensures var t, families := Next(s, step), FamiliesOf(s.rows, user);
      && AllInvalid(t.rows, families)
      && (StaysShut(t, families) <==> !RotationInFlight(t, families))
  {
    var t, families := Next(s, step), FamiliesOf(s.rows, user);
    StepKeepsCallsFit(s, step);
    forall f | f in families ensures exists id :: id in t.rows && t.rows[id].family == f {
      var id :| id in s.rows && s.rows[id].user == user && s.rows[id].family == f;
      assert id in t.rows && t.rows[id].family == f;
    }
    if RotationInFlight(t, families) {
      InFlightIssuesAValidToken(t, families);
    } else {
      forall states: seq<State>, steps: seq<Step> | IsRun(states, steps) && states[0] == t
        ensures AllInvalid(states[|states| - 1].rows, families)
      {
        ShutRun(states, steps, families, |states| - 1);
      }
    }
  }

  /**
   * When a call reports TOKEN_REUSED it has just revoked all of the user's tokens. They and all their descendants
   * then stay invalid in every continuation if and only if no rotation of that user is in flight at that moment;
   * only tokens of later logins can be valid again.
   */
  lemma ReuseShutsDownIffNothingInFlight(states: seq<State>, steps: seq<Step>, call: CallId)
    requires IsRun(states, steps) && states[0] == EMPTY
    requires var s := states[|states| - 1]; call in s.calls && s.calls[call].MustRevokeUser?
    ensures var s := states[|states| - 1];
            var t, families := Next(s, DoRevokeUser(call)), FamiliesOf(s.rows, s.calls[call].user);
      && AllInvalid(t.rows, families)
      && (StaysShut(t, families) <==> !RotationInFlight(t, families))
  {
    ReachableInv(states, steps, |states| - 1);
    ReachableFamilies(states, steps, |states| - 1);
    var s := states[|states| - 1];
    RevokedStaysShutIff(s, DoRevokeUser(call), s.calls[call].user);
  }

  /** The same of a forced logout. */
  lemma ForcedLogoutShutsDownIffNothingInFlight(states: seq<State>, steps: seq<Step>, user: UserId)
    requires IsRun(states, steps) && states[0] == EMPTY
    ensures var s := states[|states| - 1];
            var t, families := Next(s, ForceLogout(user)), FamiliesOf(s.rows, user);
      && AllInvalid(t.rows, families)
      && (StaysShut(t, families) <==> !RotationInFlight(t, families))
  {
    ReachableInv(states, steps, |states| - 1);
    ReachableFamilies(states, steps, |states| - 1);
    RevokedStaysShutIff(states[|states| - 1], ForceLogout(user), user);
  }

  /** A family belongs to one user. */
  ghost predicate OneUserPerFamily(rows: Rows) {
    forall a, b :: a in rows && b in rows && rows[a].family == rows[b].family ==> rows[a].user == rows[b].user
  }

  lemma {:induction false} ReachableFamilies(states: seq<State>, steps: seq<Step>, k: nat)
    requires IsRun(states, steps) && states[0] == EMPTY && k < |states|
    ensures OneUserPerFamily(states[k].rows)
  {
    if k > 0 {
      ReachableFamilies(states, steps, k - 1);
      ReachableInv(states, steps, k - 1);
      assert StepAt(states, steps, k - 1);
      FamilyStep(states[k - 1], steps[k - 1]);
    }
  }

  lemma FamilyStep(s: State, step: Step)
    requires CallsFit(s) && OneUserPerFamily(s.rows) && Enabled(s, step)
    ensures OneUserPerFamily(Next(s, step).rows)
  {
  }

  // ---------- Calls run to completion

  datatype RotateError = InvalidRefreshToken | TokenReused

  /** `rotateRefreshToken` without interference; `verified` is the outcome of the JWT checks. */
  function Rotate(rows: Rows, verified: bool, id: TokenId, hash: nat, now: nat, newId: TokenId, newHash: nat)
    : (Rows, Result<TokenId, RotateError>)
  {
    if !verified || !Acceptable(rows, id, hash, now) then (rows, Err(InvalidRefreshToken))
    else if rows[id].usedAt.Some? then
      (RevokeAllForUser(RevokeFamily(rows, rows[id].family), rows[id].user), Err(TokenReused))
    else
      var marked := MarkAsUsed(rows, id, now).0;
      (marked[newId := NewRow(rows[id].user, rows[id].family, newHash, now, Some(id))], Ok(newId))
  }

  /** Run alone, the call is one of three runs of the protocol, and leaves nothing in flight. */
  lemma RotateIsARun(rows: Rows, id: TokenId, hash: nat, now: nat, newId: TokenId, newHash: nat)
    returns (states: seq<State>, steps: seq<Step>)
    requires newId !in rows
    ensures IsRun(states, steps) && states[0] == State(rows, map[], now) && steps != []
    ensures states[|states| - 1] == State(Rotate(rows, true, id, hash, now, newId, newHash).0, map[], now)
    ensures steps[0] == Read(0, id, hash)
    ensures Issue(0, newId, newHash) in steps <==> Rotate(rows, true, id, hash, now, newId, newHash).1.Ok?
    ensures DoRevokeUser(0) in steps <==> Rotate(rows, true, id, hash, now, newId, newHash).1 == Err(TokenReused)
  {
    var s0 := State(rows, map[], now);
    var s1 := Next(s0, Read(0, id, hash));
    if !Acceptable(rows, id, hash, now) {
      states, steps := [s0, s1], [Read(0, id, hash)];
    } else if rows[id].usedAt.Some? {
      var s2 := Next(s1, DoRevokeFamily(0));
      var s3 := Next(s2, DoRevokeUser(0));
      states, steps := [s0, s1, s2, s3], [Read(0, id, hash), DoRevokeFamily(0), DoRevokeUser(0)];
    } else {
      var s2 := Next(s1, Mark(0));
      var s3 := Next(s2, Issue(0, newId, newHash));
      states, steps := [s0, s1, s2, s3], [Read(0, id, hash), Mark(0), Issue(0, newId, newHash)];
    }
  }

  /**
   * Calls run to completion: once a call reports TOKEN_REUSED, no token the user then had, nor any descendant of
   * one, is valid in any later state, so no rotation of them is accepted again.
   */
  lemma ReuseShutsDownSerialCalls(rows: Rows, id: TokenId, hash: nat, now: nat, newId: TokenId, newHash: nat)
    requires OneUserPerFamily(rows)
    requires Rotate(rows, true, id, hash, now, newId, newHash).1 == Err(TokenReused)
    ensures StaysShut(State(Rotate(rows, true, id, hash, now, newId, newHash).0, map[], now),
                      FamiliesOf(rows, rows[id].user))
  {
    var after := Rotate(rows, true, id, hash, now, newId, newHash).0;
    var families := FamiliesOf(rows, rows[id].user);
    var s := State(after, map[], now);
    forall f | f in families ensures exists t :: t in after && after[t].family == f {
      var t :| t in rows && rows[t].user == rows[id].user && rows[t].family == f;
      assert t in after && after[t].family == f;
    }
    assert Shut(s, families);
    forall states: seq<State>, steps: seq<Step> | IsRun(states, steps) && states[0] == s
      ensures AllInvalid(states[|states| - 1].rows, families)
    {
      ShutRun(states, steps, families, |states| - 1);
    }
  }

  /**
   * When a rotation succeeds, when it reports reuse, and when it refuses, on the columns of the stored row; and what it
   * leaves in the table.
   */
  lemma RotationCases(rows: Rows, verified: bool, id: TokenId, hash: nat, now: nat, newId: TokenId, newHash: nat)
    ensures var (after, r) := Rotate(rows, verified, id, hash, now, newId, newHash);
      && (r == Ok(newId) <==>
            && verified && id in rows && rows[id].hash == hash && rows[id].isValid && rows[id].expiresAt >= now
            && rows[id].usedAt.None?)
      && (r == Err(TokenReused) <==>
            && verified && id in rows && rows[id].hash == hash && rows[id].isValid && rows[id].expiresAt >= now
            && rows[id].usedAt.Some?)
      && (r.Ok? ==> r.value == newId)
      && (r == Err(InvalidRefreshToken) ==> after == rows)
      && (r.Ok? ==>
            var marked := rows[id := rows[id].(usedAt := Some(now))];
            var row := TokenRow(rows[id].user, rows[id].family, newHash, true, None, now + 604800000, Some(id));
            after == marked[newId := row])
      && (r == Err(TokenReused) ==>
            && after.Keys == rows.Keys
            && forall t :: t in rows ==>
                 after[t] == if rows[t].user == rows[id].user || rows[t].family == rows[id].family
                             then rows[t].(isValid := false) else rows[t])
  {
  }

  /** Revoking one token, a family, or a user's tokens invalidates just those rows, and changes nothing else. */
  lemma RevocationsMean(rows: Rows, id: TokenId, family: FamilyId, user: UserId, t: TokenId)
    requires t in rows
    ensures Revoke(rows, id).Keys == RevokeFamily(rows, family).Keys == RevokeAllForUser(rows, user).Keys == rows.Keys
    ensures Revoke(rows, id)[t] == if t == id then rows[t].(isValid := false) else rows[t]
    ensures RevokeFamily(rows, family)[t] == if rows[t].family == family then rows[t].(isValid := false) else rows[t]
    ensures RevokeAllForUser(rows, user)[t] == if rows[t].user == user then rows[t].(isValid := false) else rows[t]
  {
  }

  /** A token that has been logged out is refused from then on, in every continuation. */
  lemma LoggedOutTokenIsRefused(states: seq<State>, steps: seq<Step>, before: State, k: nat,
                                id: TokenId, hash: nat, newId: TokenId, newHash: nat)
    requires IsRun(states, steps) && states[0] == Next(before, Logout(id)) && id in before.rows && k < |states|
    ensures Rotate(states[k].rows, true, id, hash, states[k].now, newId, newHash).1 == Err(InvalidRefreshToken)
  {
    RunMovesForward(states, steps, 0, k);
  }

  /** A token issued at a login is accepted for seven days to the millisecond, if nothing else happens to it. */
  lemma LoginLastsSevenDays(s: State, id: TokenId, family: FamilyId, user: UserId, hash: nat, later: nat,
                            newId: TokenId, newHash: nat)
    requires Enabled(s, Login(id, family, user, hash)) && newId != id
    ensures var rows := Next(s, Login(id, family, user, hash)).rows;
      Rotate(rows, true, id, hash, later, newId, newHash).1.Ok? <==> later <= s.now + 604800000
  {
  }

  /** A rotation that succeeds uses up the presented token and leaves exactly one new token in its place. */
  lemma RotationReplacesToken(rows: Rows, id: TokenId, hash: nat, now: nat, newId: TokenId, newHash: nat)
    requires newId !in rows && Rotate(rows, true, id, hash, now, newId, newHash).1.Ok?
    ensures var after := Rotate(rows, true, id, hash, now, newId, newHash).0;
      && Acceptable(after, newId, newHash, now) && after[newId].usedAt.None? && after[newId].family == rows[id].family
      && (forall t :: t in rows && t != id ==> t in after && after[t] == rows[t])
      && Rotate(after, true, id, hash, now, newId, newHash).1 == Err(TokenReused)
  {
  }

  class RefreshTokenRepository {
    var rows: Rows

    constructor ()
      ensures rows == map[]
    {
      rows := map[];
    }

    method Create(id: TokenId, row: TokenRow)
      modifies this
      ensures rows == old(rows)[id := row]
    {
      rows := rows[id := row];
    }

    method FindById(id: TokenId) returns (r: Option<TokenRow>)
      ensures r == if id in rows then Some(rows[id]) else None
    {
      r := if id in rows then Some(rows[id]) else None;
    }

    /** Updates the row only if it is unused; the number of rows updated decides who won. */
    method MarkUsed(id: TokenId, now: nat) returns (count: nat)
      modifies this
      ensures (rows, count) == MarkAsUsed(old(rows), id, now)
      ensures Forward(old(rows), rows)
    {
      count := 0;
      if id in rows && rows[id].usedAt.None? {
        rows := rows[id := rows[id].(usedAt := Some(now))];
        count := 1;
      }
    }

    method RevokeOne(id: TokenId)
      modifies this
      ensures rows == Revoke(old(rows), id)
      ensures Forward(old(rows), rows)
    {
      if id in rows {
        rows := rows[id := rows[id].(isValid := false)];
      }
    }

    method RevokeTokenFamily(family: FamilyId)
      modifies this
      ensures rows == RevokeFamily(old(rows), family)
      ensures Forward(old(rows), rows)
    {
      rows := RevokeFamily(rows, family);
    }

    method RevokeUserTokens(user: UserId)
      modifies this
      ensures rows == RevokeAllForUser(old(rows), user)
      ensures Forward(old(rows), rows)
    {
      rows := RevokeAllForUser(rows, user);
    }
  }

  function MarkerAt(now: nat): Access.Marker {
    Access.Marker(now, now + Access.MARKER_TTL_MS)
  }

  class TokenService {
    const repo: RefreshTokenRepository
    var revokedUsers: map<UserId, Access.Marker>

    constructor (repo: RefreshTokenRepository)
      ensures this.repo == repo && revokedUsers == map[]
    {
      this.repo := repo;
      revokedUsers := map[];
    }

    method RevokeUserSessions(user: UserId, now: nat)
      modifies this, repo
      ensures revokedUsers == old(revokedUsers)[user := MarkerAt(now)]
      ensures repo.rows == RevokeAllForUser(old(repo.rows), user)
    {
      revokedUsers := revokedUsers[user := MarkerAt(now)];
      repo.RevokeUserTokens(user);
    }

    method RotateRefreshToken(verified: bool, id: TokenId, hash: nat, now: nat, newId: TokenId, newHash: nat)
      returns (r: Result<TokenId, RotateError>)
      modifies this, repo
      ensures (repo.rows, r) == Rotate(old(repo.rows), verified, id, hash, now, newId, newHash)
      ensures revokedUsers == if r == Err(TokenReused)
        then old(revokedUsers)[old(repo.rows)[id].user := MarkerAt(now)]
        else old(revokedUsers)
      ensures newId !in old(repo.rows) ==> Forward(old(repo.rows), repo.rows)
    {
      if !verified {
        return Err(InvalidRefreshToken);
      }
      var stored := repo.FindById(id);
      if stored.None? || stored.value.hash != hash || !stored.value.isValid || stored.value.expiresAt < now {
        return Err(InvalidRefreshToken);
      }
      var row := stored.value;
      if row.usedAt.Some? {
        repo.RevokeTokenFamily(row.family);
        RevokeUserSessions(row.user, now);
        return Err(TokenReused);
      }
      var updated := repo.MarkUsed(id, now);
      // Run alone the call cannot lose the mark; losing it to another call is the `Mark` step of the protocol.
      assert updated == 1;
      repo.Create(newId, NewRow(row.user, row.family, newHash, now, Some(id)));
      return Ok(newId);
    }
  }
}
