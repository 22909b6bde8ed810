/**
 * Groups, their membership rows and their phone invites. A call first reads and decides (`Begin`), then issues its
 * database commands one at a time (`Commit`); calls may interleave between those commands.
 */
module GroupMembership {
  import opened Sequences

  type UserId = nat
  type GroupId = nat
  type Phone = nat
  type Username = nat

  datatype Role = Owner | Admin | Member
  datatype Status = Active | Pending
  datatype InviteStatus = InvitePending | InviteAccepted | InviteExpired | InviteRevoked

  datatype MemberRow = MemberRow(role: Role, status: Status, joinedAt: Option<nat>, addedBy: Option<UserId>)
  datatype Invite = Invite(invitedBy: Option<UserId>, status: InviteStatus, expiresAt: nat)

  /** One membership row per (group, user) and one invite per (group, phone); `groups` maps a group to its creator. */
  datatype State = State(groups: map<GroupId, UserId>, members: map<(GroupId, UserId), MemberRow>,
                         invites: map<(GroupId, Phone), Invite>)

  const EMPTY := State(map[], map[], map[])

  datatype User = User(phone: Phone, isActive: bool)

  /** The user table as a call finds it. */
  datatype Directory = Directory(users: map<UserId, User>, byPhone: map<Phone, UserId>,
                                 byUsername: map<Username, UserId>)

  datatype Error =
    | UserNotFound | AccountInactive | GroupNotFound | NotGroupMember | AdminRequired | OwnerRequired
    | InviteSelfForbidden | InviteAlreadyPending | MemberConflict
    | MemberNotFound | OwnerProtected | AdminRemoveRequiresOwner | InviteNotPending | DatabaseError

  const INVITE_TTL_MS := 14 * 24 * 60 * 60 * 1000

  // ---------- Permission rules

  function RequireUser(dir: Directory, u: UserId): Result<User, Error> {
    if u !in dir.users then Err(UserNotFound)
    else if !dir.users[u].isActive then Err(AccountInactive)
    else Ok(dir.users[u])
  }

  function RequireActiveMember(s: State, u: UserId, g: GroupId): Result<MemberRow, Error> {
    if g !in s.groups then Err(GroupNotFound)
    else if (g, u) !in s.members || !s.members[(g, u)].status.Active? then Err(NotGroupMember)
    else Ok(s.members[(g, u)])
  }

  function RequireAdminOrOwner(s: State, u: UserId, g: GroupId): Result<MemberRow, Error> {
    match RequireActiveMember(s, u, g)
    case Err(e) => Err(e)
    case Ok(m) => if m.role.Member? then Err(AdminRequired) else Ok(m)
  }

  function RequireOwner(s: State, u: UserId, g: GroupId): Result<MemberRow, Error> {
    match RequireActiveMember(s, u, g)
    case Err(e) => Err(e)
    case Ok(m) => if !m.role.Owner? then Err(OwnerRequired) else Ok(m)
  }

  // ---------- Calls and the commands they issue

  /** Whom to add: a digits-only phone (none if no digits were given), a username, or a user id. */
  datatype Target = ByPhone(phone: Option<Phone>) | ByUsername(name: Username) | ByUserId(id: UserId) | NoTarget

  datatype Call =
    | CreateGroup(user: UserId, id: GroupId)
    | DeleteGroup(user: UserId, g: GroupId)
    | AddMember(user: UserId, g: GroupId, target: Target)
    | RemoveMember(user: UserId, g: GroupId, member: UserId)
    | UpdateMemberRole(user: UserId, g: GroupId, member: UserId, toAdmin: bool)
    | AcceptInvite(user: UserId, g: GroupId)
    | DeclineInvite(user: UserId, g: GroupId)
    | ClaimInvites(user: UserId, phone: Phone)

  /** One database command, carrying what the call still needs after it. */
  datatype Command =
    | InsertGroup(id: GroupId, owner: UserId)
    | EraseGroup(g: GroupId)
    | ClearInvite(g: GroupId, phone: Phone, addedBy: UserId, member: UserId)
    | FindRow(g: GroupId, addedBy: UserId, member: UserId)
    | InsertRow(g: GroupId, addedBy: UserId, member: UserId)
    | PutInvite(g: GroupId, phone: Phone, addedBy: UserId, expiresAt: nat)
    | DeleteRow(g: GroupId, member: UserId)
    | SetRole(g: GroupId, member: UserId, role: Role)
    | Activate(g: GroupId, member: UserId)
    | ClaimAll(claimant: UserId, phone: Phone)

  datatype Outcome = Done | Failed(error: Error)

  datatype Progress = Issue(command: Command) | Finished(outcome: Outcome)

  function Resolve(dir: Directory, t: Target): Option<UserId> {
    match t
    case ByPhone(p) => if p.Some? && p.value in dir.byPhone then Some(dir.byPhone[p.value]) else None
    case ByUsername(n) => if n in dir.byUsername then Some(dir.byUsername[n]) else None
    case ByUserId(u) => Some(u)
    case NoTarget => None
  }

  function BeginAdd(dir: Directory, actor: UserId, caller: User, g: GroupId, t: Target, now: nat): Progress {
    match Resolve(dir, t)
    case Some(member) =>
      if member !in dir.users then Finished(Failed(UserNotFound))
      else if !dir.users[member].isActive then Finished(Failed(AccountInactive))
      else if member == actor then Finished(Failed(InviteSelfForbidden))
      else Issue(ClearInvite(g, dir.users[member].phone, actor, member))
    case None =>
      if !t.ByPhone? || t.phone.None? then Finished(Failed(UserNotFound))
      else if t.phone.value == caller.phone then Finished(Failed(InviteSelfForbidden))
      else Issue(PutInvite(g, t.phone.value, actor, now + INVITE_TTL_MS))
  }

  function BeginRemove(s: State, actor: UserId, actorRow: MemberRow, g: GroupId, member: UserId): Progress {
    if (g, member) !in s.members then Finished(Failed(MemberNotFound))
    else
      var row := s.members[(g, member)];
      if row.role.Owner? then Finished(Failed(OwnerProtected))
      else if row.role.Admin? && !actorRow.role.Owner? && actor != member then
        Finished(Failed(AdminRemoveRequiresOwner))
      else Issue(DeleteRow(g, member))
  }

  function BeginUpdateRole(s: State, g: GroupId, member: UserId, toAdmin: bool): Progress {
    if (g, member) !in s.members then Finished(Failed(MemberNotFound))
    else
      var row := s.members[(g, member)];
      var role := if toAdmin then Admin else Member;
      if !row.status.Active? then Finished(Failed(NotGroupMember))
      else if row.role.Owner? then Finished(Failed(OwnerProtected))
      else if row.role == role then Finished(Done)
      else Issue(SetRole(g, member, role))
  }

  /** Accepting twice is harmless: an active row is left as it is. */
  function BeginAnswer(s: State, user: UserId, g: GroupId, accept: bool): Progress {
    if g !in s.groups then Finished(Failed(GroupNotFound))
    else if (g, user) !in s.members then Finished(Failed(MemberNotFound))
    else if s.members[(g, user)].status.Active? then
      if accept then Finished(Done) else Finished(Failed(InviteNotPending))
    else Issue(if accept then Activate(g, user) else DeleteRow(g, user))
  }

  /** The reads and checks of a call, up to its first database command. */
  function Begin(s: State, dir: Directory, call: Call, now: nat): Progress {
    if call.ClaimInvites? then Issue(ClaimAll(call.user, call.phone))
    else
      match RequireUser(dir, call.user)
      case Err(e) => Finished(Failed(e))
      case Ok(caller) =>
        match call
        case CreateGroup(u, id) => Issue(InsertGroup(id, u))
        case DeleteGroup(u, g) =>
          (match RequireOwner(s, u, g)
           case Err(e) => Finished(Failed(e))
           case Ok(_) => Issue(EraseGroup(g)))
        case AddMember(u, g, t) =>
          (match RequireAdminOrOwner(s, u, g)
           case Err(e) => Finished(Failed(e))
           case Ok(_) => BeginAdd(dir, u, caller, g, t, now))
        case RemoveMember(u, g, m) =>
          (match RequireAdminOrOwner(s, u, g)
           case Err(e) => Finished(Failed(e))
           case Ok(row) => BeginRemove(s, u, row, g, m))
        case UpdateMemberRole(u, g, m, toAdmin) =>
          (match RequireOwner(s, u, g)
           case Err(e) => Finished(Failed(e))
           case Ok(_) => BeginUpdateRole(s, g, m, toAdmin))
        case AcceptInvite(u, g) => BeginAnswer(s, u, g, true)
        case DeclineInvite(u, g) => BeginAnswer(s, u, g, false)
  }

  predicate LiveInvite(s: State, g: GroupId, phone: Phone, now: nat) {
    (g, phone) in s.invites && s.invites[(g, phone)].status.InvitePending? && s.invites[(g, phone)].expiresAt > now
  }

  function LiveGroups(s: State, phone: Phone, now: nat): set<GroupId> {
    set k | k in s.invites && k.1 == phone && LiveInvite(s, k.0, phone, now) :: k.0
  }

  /** Every live invite of the phone becomes a pending row of the user, unless there is a row already. */
  function Claim(s: State, phone: Phone, user: UserId, now: nat): State {
    Claimed(s, phone, user, LiveGroups(s, phone, now))
  }

  /** The tables once the phone's invites to these groups are worked off. */
  function Claimed(s: State, phone: Phone, user: UserId, claimed: set<GroupId>): State
    requires forall g :: g in claimed ==> (g, phone) in s.invites
  {
    State(s.groups, ClaimedRows(s, phone, user, claimed), s.invites - Keyed(claimed, phone))
  }

  function ClaimedRows(s: State, phone: Phone, user: UserId, claimed: set<GroupId>): map<(GroupId, UserId), MemberRow>
    requires forall g :: g in claimed ==> (g, phone) in s.invites
  {
    map k | k in s.members.Keys + Keyed(claimed, user) ::
      if k in s.members then s.members[k] else MemberRow(Member, Pending, None, s.invites[(k.0, phone)].invitedBy)
  }

  function Keyed(gs: set<GroupId>, second: nat): (r: set<(GroupId, nat)>)
    ensures forall k: (GroupId, nat) :: k in r <==> k.0 in gs && k.1 == second
  {
    var r := set g | g in gs :: (g, second);
    assert forall k: (GroupId, nat) :: k.0 in gs && k.1 == second ==> k == (k.0, second);
    r
  }

  /** What one command does to the tables as it finds them: keys are unique, rows and invites go with their group. */
  function Commit(s: State, c: Command, now: nat): (State, Progress) {
    match c
    case InsertGroup(id, owner) =>
      (s.(groups := s.groups[id := owner],
          members := s.members[(id, owner) := MemberRow(Owner, Active, Some(now), None)]), Finished(Done))
    case EraseGroup(g) =>
      if g !in s.groups then (s, Finished(Failed(GroupNotFound)))
      else (State(s.groups - {g}, map k | k in s.members && k.0 != g :: s.members[k],
                  map k | k in s.invites && k.0 != g :: s.invites[k]), Finished(Done))
    case ClearInvite(g, phone, who, m) => (s.(invites := s.invites - {(g, phone)}), Issue(FindRow(g, who, m)))
    case FindRow(g, who, m) =>
      if (g, m) !in s.members then (s, Issue(InsertRow(g, who, m)))
      else (s, Finished(Failed(if s.members[(g, m)].status.Pending? then InviteAlreadyPending else MemberConflict)))
    case InsertRow(g, who, m) =>
      if g !in s.groups then (s, Finished(Failed(DatabaseError)))
      else if (g, m) in s.members then (s, Finished(Failed(MemberConflict)))
      else (s.(members := s.members[(g, m) := MemberRow(Member, Pending, None, Some(who))]), Finished(Done))
    case PutInvite(g, phone, who, expiresAt) =>
      if g !in s.groups then (s, Finished(Failed(DatabaseError)))
      else (s.(invites := s.invites[(g, phone) := Invite(Some(who), InvitePending, expiresAt)]), Finished(Done))
    case DeleteRow(g, m) =>
      if (g, m) !in s.members then (s, Finished(Failed(MemberNotFound)))
      else (s.(members := s.members - {(g, m)}), Finished(Done))
    case SetRole(g, m, role) =>
      if (g, m) !in s.members then (s, Finished(Failed(MemberNotFound)))
      else (s.(members := s.members[(g, m) := s.members[(g, m)].(role := role)]), Finished(Done))
    case Activate(g, m) =>
      if (g, m) !in s.members then (s, Finished(Failed(MemberNotFound)))
      else
        var row := s.members[(g, m)].(status := Active, joinedAt := Some(now));
        (s.(members := s.members[(g, m) := row]), Finished(Done))
    case ClaimAll(u, phone) => (Claim(s, phone, u, now), Finished(Done))
  }

  function CommandsLeft(p: Progress): nat {
    if p.Finished? then 0 else if p.command.ClearInvite? then 3 else if p.command.FindRow? then 2 else 1
  }

  function Finish(s: State, p: Progress, now: nat): (State, Outcome)
    decreases CommandsLeft(p)
  {
    match p
    case Finished(o) => (s, o)
    case Issue(c) => var (t, q) := Commit(s, c, now); Finish(t, q, now)
  }

  /** A call run to completion with no other call in between. */
  function Serve(s: State, dir: Directory, call: Call, now: nat): (State, Outcome) {
    Finish(s, Begin(s, dir, call, now), now)
  }

  // ---------- What holds whatever the interleaving

  /** Rows and invites belong to groups; the creator is the one owner, active; `joinedAt` is set just when active. */
  ghost predicate Sound(s: State) {
    && (forall k :: k in s.members ==> k.0 in s.groups)
    && (forall k :: k in s.invites ==> k.0 in s.groups)
    && (forall g :: g in s.groups ==> HasOwner(s, g))
    && (forall k :: k in s.members && s.members[k].role.Owner? ==> k.1 == s.groups[k.0])
    && (forall k :: k in s.members ==> (s.members[k].joinedAt.Some? <==> s.members[k].status.Active?))
  }

  ghost predicate HasOwner(s: State, g: GroupId)
    requires g in s.groups
  {
    && (g, s.groups[g]) in s.members
    && s.members[(g, s.groups[g])].role.Owner?
    && s.members[(g, s.groups[g])].status.Active?
  }

  /** A command that rewrites a row never aims at the owner's, and never hands out ownership. */
  ghost predicate SparesOwner(s: State, c: Command) {
    match c
    case DeleteRow(g, m) => g in s.groups ==> s.groups[g] != m
    case Activate(g, m) => g in s.groups ==> s.groups[g] != m
    case SetRole(g, m, role) => !role.Owner? && (g in s.groups ==> s.groups[g] != m)
    case _ => true
  }

  lemma BeginSparesOwner(s: State, dir: Directory, call: Call, now: nat)
    requires Sound(s)
    ensures var p := Begin(s, dir, call, now); p.Issue? ==> SparesOwner(s, p.command)
  {
    if (call.RemoveMember? || call.UpdateMemberRole?) && (call.g, call.member) in s.members && call.g in s.groups {
      assert HasOwner(s, call.g);
    }
    if (call.AcceptInvite? || call.DeclineInvite?) && (call.g, call.user) in s.members && call.g in s.groups {
      assert HasOwner(s, call.g);
    }
  }

  /** Every group that is still there has the same creator, holding the very same owner row. */
  ghost predicate KeepsOwners(s: State, t: State) {
    forall g :: g in s.groups && g in t.groups ==>
      t.groups[g] == s.groups[g] && OwnerRow(s, g).Some? && OwnerRow(t, g) == OwnerRow(s, g)
  }

  function OwnerRow(s: State, g: GroupId): Option<MemberRow>
    requires g in s.groups
  {
    if (g, s.groups[g]) in s.members then Some(s.members[(g, s.groups[g])]) else None
  }

  /** One row put in or taken out of an existing group, and invites only dropped or put under existing groups. */
  lemma RowChangeKeepsSound(s: State, t: State, g: GroupId, m: UserId)
    requires Sound(s) && t.groups == s.groups
    requires forall k :: k in t.invites ==> k.0 in t.groups
    requires g in s.groups ==> s.groups[g] != m
    requires forall k :: k != (g, m) ==> (k in t.members <==> k in s.members)
    requires forall k :: k != (g, m) && k in s.members ==> t.members[k] == s.members[k]
    requires (g, m) in t.members ==>
               var row := t.members[(g, m)];
               g in s.groups && !row.role.Owner? && (row.joinedAt.Some? <==> row.status.Active?)
    ensures Sound(t) && KeepsOwners(s, t)
  {
    forall h | h in s.groups ensures HasOwner(t, h) && t.members[(h, s.groups[h])] == s.members[(h, s.groups[h])] {
      assert HasOwner(s, h);
      assert (h, s.groups[h]) != (g, m);
    }
  }

  lemma InsertGroupKeepsSound(s: State, id: GroupId, owner: UserId, now: nat)
    requires Sound(s) && id !in s.groups
    ensures var t := Commit(s, InsertGroup(id, owner), now).0; Sound(t) && KeepsOwners(s, t)
  {
    var t := Commit(s, InsertGroup(id, owner), now).0;
    forall h | h in t.groups ensures HasOwner(t, h) {
      assert h != id ==> HasOwner(s, h);
    }
  }

  lemma EraseGroupKeepsSound(s: State, g: GroupId, now: nat)
    requires Sound(s)
    ensures var t := Commit(s, EraseGroup(g), now).0; Sound(t) && KeepsOwners(s, t)
  {
    var t := Commit(s, EraseGroup(g), now).0;
    forall h | h in t.groups ensures HasOwner(t, h) {
      assert HasOwner(s, h);
    }
  }

  /** Claiming, row by row and invite by invite. */
  lemma ClaimMeans(s: State, phone: Phone, user: UserId, now: nat)
    ensures var t := Claim(s, phone, user, now);
            && t.groups == s.groups
            && (forall g: GroupId, u: UserId ::
                  (g, u) in t.members <==> (g, u) in s.members || (u == user && LiveInvite(s, g, phone, now)))
            && (forall k :: k in s.members ==> t.members[k] == s.members[k])
            && (forall g: GroupId :: LiveInvite(s, g, phone, now) && (g, user) !in s.members ==>
                  t.members[(g, user)] == MemberRow(Member, Pending, None, s.invites[(g, phone)].invitedBy))
            && (forall g: GroupId, p: Phone ::
                  (g, p) in t.invites <==> (g, p) in s.invites && !(p == phone && LiveInvite(s, g, phone, now)))
            && (forall k :: k in t.invites ==> t.invites[k] == s.invites[k])
  {
    forall g: GroupId ensures g in LiveGroups(s, phone, now) <==> LiveInvite(s, g, phone, now) {
      assert LiveInvite(s, g, phone, now) ==> (g, phone) in s.invites;
    }
  }

  lemma OwnersStay(s: State, t: State)
    requires Sound(s) && t.groups == s.groups
    requires forall k :: k in s.members && s.members[k].role.Owner? ==> k in t.members && t.members[k] == s.members[k]
    ensures KeepsOwners(s, t) && forall g :: g in t.groups ==> HasOwner(t, g)
  {
    forall g | g in s.groups ensures HasOwner(s, g) && HasOwner(t, g) { }
  }

  predicate IsInvitation(row: MemberRow) {
    row.role.Member? && row.status.Pending? && row.joinedAt.None?
  }

  lemma PendingRowsKeepSound(s: State, t: State)
    requires Sound(s) && t.groups == s.groups
    requires forall k :: k in s.members ==> k in t.members && t.members[k] == s.members[k]
    requires forall k :: k in t.members && k !in s.members ==>
               k.0 in s.groups && IsInvitation(t.members[k])
    requires forall k :: k in t.invites ==> k.0 in s.groups
    ensures Sound(t) && KeepsOwners(s, t)
  {
    OwnersStay(s, t);
  }

  lemma ClaimKeepsSound(s: State, phone: Phone, user: UserId, now: nat)
    requires Sound(s)
    ensures var t := Claim(s, phone, user, now); Sound(t) && KeepsOwners(s, t)
  {
    var t := Claim(s, phone, user, now);
    forall k | k in t.members && k !in s.members
      ensures k.0 in s.groups && IsInvitation(t.members[k])
    {
      assert (k.0, phone) in s.invites;
    }
    PendingRowsKeepSound(s, t);
  }

  lemma RowCommandKeepsSound(s: State, c: Command, now: nat)
    requires Sound(s) && SparesOwner(s, c) && (c.InsertRow? || c.DeleteRow? || c.SetRole? || c.Activate?)
    ensures Sound(Commit(s, c, now).0) && KeepsOwners(s, Commit(s, c, now).0)
  {
    var t := Commit(s, c, now).0;
    assert c.g in s.groups ==> HasOwner(s, c.g);
    if t == s {
      OwnersStay(s, s);
    } else {
      RowChangeKeepsSound(s, t, c.g, c.member);
    }
  }

  lemma CommitKeepsSound(s: State, c: Command, now: nat)
    requires Sound(s) && SparesOwner(s, c) && (c.InsertGroup? ==> c.id !in s.groups)
    ensures Sound(Commit(s, c, now).0) && KeepsOwners(s, Commit(s, c, now).0)
  {
    if c.InsertGroup? {
      InsertGroupKeepsSound(s, c.id, c.owner, now);
    } else if c.EraseGroup? {
      EraseGroupKeepsSound(s, c.g, now);
    } else if c.ClaimAll? {
      ClaimKeepsSound(s, c.phone, c.claimant, now);
    } else if c.InsertRow? || c.DeleteRow? || c.SetRole? || c.Activate? {
      RowCommandKeepsSound(s, c, now);
    } else {
      OwnersStay(s, Commit(s, c, now).0);
    }
  }

  // ---------- Admins are active, unless a promotion commits late

  ghost predicate AdminsActive(s: State) {
    forall k :: k in s.members && s.members[k].role.Admin? ==> s.members[k].status.Active?
  }

  /** The promoted row is active, or gone, when the command reaches the table. */
  predicate PromotesActive(s: State, c: Command) {
    c.SetRole? && c.role.Admin? && (c.g, c.member) in s.members ==> s.members[(c.g, c.member)].status.Active?
  }

  lemma AdminsStayActiveIff(s: State, c: Command, now: nat)
    requires AdminsActive(s)
    ensures AdminsActive(Commit(s, c, now).0) <==> PromotesActive(s, c)
  {
    var t := Commit(s, c, now).0;
    if c.SetRole? && (c.g, c.member) in s.members {
      assert t.members[(c.g, c.member)].role == c.role;
    }
  }

  lemma BeginPromotesActive(s: State, dir: Directory, call: Call, now: nat)
    ensures var p := Begin(s, dir, call, now); p.Issue? ==> PromotesActive(s, p.command)
  { }

  ghost predicate Inv(s: State) {
    Sound(s) && AdminsActive(s)
  }

  predicate FreshGroup(s: State, call: Call) {
    call.CreateGroup? ==> call.id !in s.groups
  }

  lemma CommitKeepsInv(s: State, c: Command, now: nat)
    requires Inv(s) && SparesOwner(s, c) && PromotesActive(s, c) && (c.InsertGroup? ==> c.id !in s.groups)
    ensures Inv(Commit(s, c, now).0) && KeepsOwners(s, Commit(s, c, now).0)
  {
    CommitKeepsSound(s, c, now);
    AdminsStayActiveIff(s, c, now);
  }

  lemma FinishStep(s: State, c: Command, now: nat)
    ensures var (t, q) := Commit(s, c, now);
            && Finish(s, Issue(c), now) == Finish(t, q, now)
            && (q.Finished? ==> Finish(s, Issue(c), now) == (t, q.outcome))
            && (q.Finished? <== !c.ClearInvite? && !c.FindRow?)
  {
    var (t, q) := Commit(s, c, now);
    assert Finish(s, Issue(c), now) == Finish(t, q, now);
  }

  /** Adding a registered user: the invite of that phone goes, then the row is looked for, then it is put in. */
  lemma AddRegisteredKeepsInv(s: State, c: Command, now: nat)
    requires Inv(s) && c.ClearInvite?
    ensures var t := Finish(s, Issue(c), now).0; Inv(t) && KeepsOwners(s, t)
  {
    var s1 := Commit(s, c, now).0;
    var find := FindRow(c.g, c.addedBy, c.member);
    var insert := InsertRow(c.g, c.addedBy, c.member);
    CommitKeepsInv(s, c, now);
    CommitKeepsInv(s1, insert, now);
    FinishStep(s, c, now);
    FinishStep(s1, find, now);
    FinishStep(s1, insert, now);
  }

  lemma BeginIssues(s: State, dir: Directory, call: Call, now: nat)
    ensures var p := Begin(s, dir, call, now);
            p.Issue? ==>
              && !p.command.FindRow?
              && (p.command.InsertGroup? ==> call == CreateGroup(p.command.owner, p.command.id))
  { }

  lemma ServeKeepsInv(s: State, dir: Directory, call: Call, now: nat)
    requires Inv(s) && FreshGroup(s, call)
    ensures var t := Serve(s, dir, call, now).0; Inv(t) && KeepsOwners(s, t)
  {
    BeginSparesOwner(s, dir, call, now);
    BeginPromotesActive(s, dir, call, now);
    BeginIssues(s, dir, call, now);
    FinishBegunKeepsInv(s, Begin(s, dir, call, now), now);
  }

  lemma FinishBegunKeepsInv(s: State, p: Progress, now: nat)
    requires Inv(s)
    requires p.Issue? ==> SparesOwner(s, p.command) && PromotesActive(s, p.command) && !p.command.FindRow?
    requires p.Issue? && p.command.InsertGroup? ==> p.command.id !in s.groups
    ensures var t := Finish(s, p, now).0; Inv(t) && KeepsOwners(s, t)
  {
    if p.Finished? {
      OwnersStay(s, s);
    } else if p.command.ClearInvite? {
      AddRegisteredKeepsInv(s, p.command, now);
    } else {
      CommitKeepsInv(s, p.command, now);
      FinishStep(s, p.command, now);
    }
  }

  // ---------- Serial runs

  datatype Request = Request(dir: Directory, call: Call, now: nat)

  ghost predicate ServedAt(states: seq<State>, requests: seq<Request>, i: nat)
    requires i < |requests| && i + 1 < |states|
  {
    FreshGroup(states[i], requests[i].call)
    && states[i + 1] == Serve(states[i], requests[i].dir, requests[i].call, requests[i].now).0
  }

  ghost predicate IsSerialRun(states: seq<State>, requests: seq<Request>) {
    && |states| == |requests| + 1 && states[0] == EMPTY
    && forall i :: 0 <= i < |requests| ==> ServedAt(states, requests, i)
  }

  lemma {:induction false} ReachableInv(states: seq<State>, requests: seq<Request>, k: nat)
    requires IsSerialRun(states, requests) && k < |states|
    ensures Inv(states[k])
  {
    if k > 0 {
      ReachableInv(states, requests, k - 1);
      assert ServedAt(states, requests, k - 1);
      var q := requests[k - 1];
      ServeKeepsInv(states[k - 1], q.dir, q.call, q.now);
    }
  }

  // ---------- Who may touch whose row

  function Row(s: State, g: GroupId, u: UserId): Option<MemberRow> {
    if (g, u) in s.members then Some(s.members[(g, u)]) else None
  }

  predicate Manages(s: State, u: UserId, g: GroupId) {
    Row(s, g, u).Some? && Row(s, g, u).value.status.Active? && !Row(s, g, u).value.role.Member?
  }

  /** Whose row in a group a command may change. */
  predicate Touches(c: Command, g: GroupId, u: UserId) {
    match c
    case InsertGroup(id, owner) => g == id && u == owner
    case EraseGroup(h) => g == h
    case ClearInvite(h, _, _, m) => g == h && u == m
    case FindRow(h, _, m) => g == h && u == m
    case InsertRow(h, _, m) => g == h && u == m
    case PutInvite(_, _, _, _) => false
    case DeleteRow(h, m) => g == h && u == m
    case SetRole(h, m, _) => g == h && u == m
    case Activate(h, m) => g == h && u == m
    case ClaimAll(claimant, _) => u == claimant
  }

  lemma CommitTouches(s: State, c: Command, now: nat, g: GroupId, u: UserId)
    requires !Touches(c, g, u)
    ensures Row(Commit(s, c, now).0, g, u) == Row(s, g, u)
    ensures Commit(s, c, now).1.Issue? ==> !Touches(Commit(s, c, now).1.command, g, u)
  { }

  lemma {:induction false} FinishTouches(s: State, p: Progress, now: nat, g: GroupId, u: UserId)
    requires p.Issue? ==> !Touches(p.command, g, u)
    ensures Row(Finish(s, p, now).0, g, u) == Row(s, g, u)
    decreases CommandsLeft(p)
  {
    if p.Issue? {
      CommitTouches(s, p.command, now, g, u);
      var (t, q) := Commit(s, p.command, now);
      FinishTouches(t, q, now, g, u);
    }
  }

  /** A call waits for a command on someone else's row only if it adds, removes, changes a role, or erases the group. */
  lemma OthersRowsAreTouchedBy(s: State, dir: Directory, call: Call, now: nat, g: GroupId, u: UserId)
    requires u != call.user
    requires Begin(s, dir, call, now).Issue? && Touches(Begin(s, dir, call, now).command, g, u)
    ensures var c := Begin(s, dir, call, now).command;
      c.ClearInvite? || c.DeleteRow? || c.SetRole? || c.EraseGroup?
  { }

  lemma AddingNeedsAuthority(s: State, dir: Directory, call: Call, now: nat)
    requires Begin(s, dir, call, now).Issue? && Begin(s, dir, call, now).command.ClearInvite?
    ensures Manages(s, call.user, Begin(s, dir, call, now).command.g)
  { }

  lemma RemovingNeedsAuthority(s: State, dir: Directory, call: Call, now: nat, g: GroupId, u: UserId)
    requires u != call.user && Begin(s, dir, call, now) == Issue(DeleteRow(g, u))
    ensures Manages(s, call.user, g)
    ensures Row(s, g, u).Some? && !Row(s, g, u).value.role.Owner?
    ensures Row(s, g, u).value.role.Admin? ==> Row(s, g, call.user).value.role.Owner?
  { }

  lemma PromotingNeedsAuthority(s: State, dir: Directory, call: Call, now: nat)
    requires Begin(s, dir, call, now).Issue? && Begin(s, dir, call, now).command.SetRole?
    ensures var c := Begin(s, dir, call, now).command;
      && Manages(s, call.user, c.g) && Row(s, c.g, call.user).value.role.Owner?
      && Row(s, c.g, c.member).Some? && !Row(s, c.g, c.member).value.role.Owner?
  { }

  lemma ErasingNeedsAuthority(s: State, dir: Directory, call: Call, now: nat, u: UserId)
    requires Sound(s) && Begin(s, dir, call, now).Issue? && Begin(s, dir, call, now).command.EraseGroup?
    ensures var g := Begin(s, dir, call, now).command.g;
      && Manages(s, call.user, g) && Row(s, g, call.user).value.role.Owner?
      && (u != call.user && Row(s, g, u).Some? ==> !Row(s, g, u).value.role.Owner?)
  { }

  lemma AddLeavesAnExistingRow(s: State, c: Command, now: nat)
    requires c.ClearInvite? && (c.g, c.member) in s.members
    ensures Finish(s, Issue(c), now).0.members == s.members && Finish(s, Issue(c), now).1.Failed?
  {
    FinishStep(s, c, now);
    FinishStep(Commit(s, c, now).0, FindRow(c.g, c.addedBy, c.member), now);
  }

  lemma ChangedRowIsTouched(s: State, dir: Directory, call: Call, now: nat, g: GroupId, u: UserId)
    requires Row(Serve(s, dir, call, now).0, g, u) != Row(s, g, u)
    ensures var p := Begin(s, dir, call, now);
      p.Issue? && Touches(p.command, g, u) && (p.command.ClearInvite? ==> Row(s, g, u).None?)
  {
    var p := Begin(s, dir, call, now);
    if p.Finished? || !Touches(p.command, g, u) {
      FinishTouches(s, p, now, g, u);
    } else if p.command.ClearInvite? && Row(s, g, u).Some? {
      AddLeavesAnExistingRow(s, p.command, now);
    }
  }

  /**
   * A call changes someone else's row only if the caller manages that group; an admin's row, only if the caller owns
   * it; and the owner's row, never.
   */
  lemma OthersRowsNeedAuthority(s: State, dir: Directory, call: Call, now: nat, g: GroupId, u: UserId)
    requires Sound(s) && u != call.user
    requires Row(Serve(s, dir, call, now).0, g, u) != Row(s, g, u)
    ensures Manages(s, call.user, g)
    ensures Row(s, g, u).Some? && Row(s, g, u).value.role.Admin? ==> Row(s, g, call.user).value.role.Owner?
    ensures Row(s, g, u).Some? ==> !Row(s, g, u).value.role.Owner?
  {
    ChangedRowIsTouched(s, dir, call, now, g, u);
    OthersRowsAreTouchedBy(s, dir, call, now, g, u);
    match Begin(s, dir, call, now).command
    case ClearInvite(_, _, _, _) => AddingNeedsAuthority(s, dir, call, now);
    case DeleteRow(_, _) => RemovingNeedsAuthority(s, dir, call, now, g, u);
    case SetRole(_, _, _) => PromotingNeedsAuthority(s, dir, call, now);
    case EraseGroup(_) => ErasingNeedsAuthority(s, dir, call, now, u);
  }

  // ---------- What each call does, row by row

  /** A call that issues just one command leaves what that command leaves. */
  lemma ServeOne(s: State, dir: Directory, call: Call, now: nat)
    requires Begin(s, dir, call, now).Issue? && !call.AddMember?
    ensures var (t, q) := Commit(s, Begin(s, dir, call, now).command, now);
            q.Finished? && Serve(s, dir, call, now) == (t, q.outcome)
  {
    BeginIssues(s, dir, call, now);
    FinishStep(s, Begin(s, dir, call, now).command, now);
  }

  predicate ActiveAccount(dir: Directory, u: UserId) {
    u in dir.users && dir.users[u].isActive
  }

  predicate ActiveAs(s: State, g: GroupId, u: UserId, roles: set<Role>) {
    g in s.groups && (g, u) in s.members && s.members[(g, u)].status.Active? && s.members[(g, u)].role in roles
  }

  /** Whoever calls must have an active account; the claim after a sign-in is not made by a caller. */
  lemma CallerCases(s: State, dir: Directory, call: Call, now: nat)
    requires !call.ClaimInvites?
    ensures call.user !in dir.users ==> Serve(s, dir, call, now) == (s, Failed(UserNotFound))
    ensures call.user in dir.users && !dir.users[call.user].isActive ==>
      Serve(s, dir, call, now) == (s, Failed(AccountInactive))
  {
  }

  /** Adding and removing takes an active admin or owner; changing roles and deleting the group, its owner. */
  lemma AuthorityCases(s: State, dir: Directory, call: Call, now: nat)
    requires call.AddMember? || call.RemoveMember? || call.UpdateMemberRole? || call.DeleteGroup?
    requires ActiveAccount(dir, call.user)
    ensures var r := Serve(s, dir, call, now);
            var row := Row(s, call.g, call.user);
      && (call.g !in s.groups ==> r == (s, Failed(GroupNotFound)))
      && (call.g in s.groups && (row.None? || row.value.status.Pending?) ==> r == (s, Failed(NotGroupMember)))
      && (call.g in s.groups && row.Some? && row.value.status.Active? && row.value.role.Member? ==>
            r == (s, Failed(if call.AddMember? || call.RemoveMember? then AdminRequired else OwnerRequired)))
      && (call.UpdateMemberRole? || call.DeleteGroup? ==>
            (call.g in s.groups && row.Some? && row.value.status.Active? && row.value.role.Admin? ==>
               r == (s, Failed(OwnerRequired))))
  {
  }

  lemma CreateGroupCases(s: State, dir: Directory, u: UserId, id: GroupId, now: nat)
    requires ActiveAccount(dir, u)
    ensures Serve(s, dir, CreateGroup(u, id), now) ==
      (State(s.groups[id := u], s.members[(id, u) := MemberRow(Owner, Active, Some(now), None)], s.invites), Done)
  {
    ServeOne(s, dir, CreateGroup(u, id), now);
  }

  /** Deleting a group takes its rows and invites with it, and nothing else. */
  lemma DeleteGroupCases(s: State, dir: Directory, u: UserId, g: GroupId, now: nat)
    requires ActiveAccount(dir, u) && ActiveAs(s, g, u, {Owner})
    ensures var (t, o) := Serve(s, dir, DeleteGroup(u, g), now);
      && o == Done && t.groups == s.groups - {g}
      && (forall k :: k in t.members <==> k in s.members && k.0 != g)
      && (forall k :: k in t.members ==> t.members[k] == s.members[k])
      && (forall k :: k in t.invites <==> k in s.invites && k.0 != g)
      && (forall k :: k in t.invites ==> t.invites[k] == s.invites[k])
  {
    ServeOne(s, dir, DeleteGroup(u, g), now);
  }

  /** Accepting makes a pending row active from now on and changes nothing else; an active row stays as it is. */
  lemma AcceptCases(s: State, dir: Directory, u: UserId, g: GroupId, now: nat)
    requires ActiveAccount(dir, u)
    ensures var (t, o) := Serve(s, dir, AcceptInvite(u, g), now);
      && (o == Done <==> g in s.groups && (g, u) in s.members)
      && (g !in s.groups ==> o == Failed(GroupNotFound))
      && (g in s.groups && (g, u) !in s.members ==> o == Failed(MemberNotFound))
      && (o == Done && s.members[(g, u)].status.Pending? ==>
            var row := s.members[(g, u)];
            t == State(s.groups, s.members[(g, u) := MemberRow(row.role, Active, Some(now), row.addedBy)], s.invites))
      && (o != Done || s.members[(g, u)].status.Active? ==> t == s)
  {
    if Begin(s, dir, AcceptInvite(u, g), now).Issue? {
      ServeOne(s, dir, AcceptInvite(u, g), now);
    }
  }

  /** Declining takes the pending row out and changes nothing else; an active member cannot decline. */
  lemma DeclineCases(s: State, dir: Directory, u: UserId, g: GroupId, now: nat)
    requires ActiveAccount(dir, u)
    ensures var (t, o) := Serve(s, dir, DeclineInvite(u, g), now);
      && (o == Done <==> g in s.groups && (g, u) in s.members && s.members[(g, u)].status.Pending?)
      && (g !in s.groups ==> o == Failed(GroupNotFound))
      && (g in s.groups && (g, u) !in s.members ==> o == Failed(MemberNotFound))
      && (g in s.groups && (g, u) in s.members && s.members[(g, u)].status.Active? ==> o == Failed(InviteNotPending))
      && t == if o == Done then State(s.groups, s.members - {(g, u)}, s.invites) else s
  {
    if Begin(s, dir, DeclineInvite(u, g), now).Issue? {
      ServeOne(s, dir, DeclineInvite(u, g), now);
    }
  }

  /** Removing takes out exactly the member's row; never the owner's, and an admin's only by the owner or that admin. */
  lemma RemoveCases(s: State, dir: Directory, u: UserId, g: GroupId, m: UserId, now: nat)
    requires ActiveAccount(dir, u) && ActiveAs(s, g, u, {Owner, Admin})
    ensures var (t, o) := Serve(s, dir, RemoveMember(u, g, m), now);
            var row := Row(s, g, m);
      && (o == Failed(MemberNotFound) <==> row.None?)
      && (o == Failed(OwnerProtected) <==> row.Some? && row.value.role.Owner?)
      && (o == Failed(AdminRemoveRequiresOwner) <==>
            row.Some? && row.value.role.Admin? && s.members[(g, u)].role.Admin? && u != m)
      && (o == Done <==>
            && row.Some?
            && (row.value.role.Member? || (row.value.role.Admin? && (s.members[(g, u)].role.Owner? || u == m))))
      && t == if o == Done then State(s.groups, s.members - {(g, m)}, s.invites) else s
  {
    if Begin(s, dir, RemoveMember(u, g, m), now).Issue? {
      ServeOne(s, dir, RemoveMember(u, g, m), now);
    }
  }

  /** The owner sets exactly the role asked for, up or down, on an active member's row. */
  lemma UpdateRoleCases(s: State, dir: Directory, u: UserId, g: GroupId, m: UserId, toAdmin: bool, now: nat)
    requires ActiveAccount(dir, u) && ActiveAs(s, g, u, {Owner})
    ensures var (t, o) := Serve(s, dir, UpdateMemberRole(u, g, m, toAdmin), now);
            var row := Row(s, g, m);
      && (o == Failed(MemberNotFound) <==> row.None?)
      && (o == Failed(NotGroupMember) <==> row.Some? && row.value.status.Pending?)
      && (o == Failed(OwnerProtected) <==> row.Some? && row.value.status.Active? && row.value.role.Owner?)
      && (o == Done <==> row.Some? && row.value.status.Active? && !row.value.role.Owner?)
      && (o != Done ==> t == s)
      && (o == Done ==>
            t.groups == s.groups && t.invites == s.invites
            && t.members == s.members[(g, m) := MemberRow(if toAdmin then Admin else Member, Active,
                                                          row.value.joinedAt, row.value.addedBy)])
  {
    if Begin(s, dir, UpdateMemberRole(u, g, m, toAdmin), now).Issue? {
      ServeOne(s, dir, UpdateMemberRole(u, g, m, toAdmin), now);
    } else if Row(s, g, m).Some? {
      assert s.members[(g, m) := s.members[(g, m)]] == s.members;
    }
  }

  /** Whom a target names. */
  predicate Names(dir: Directory, t: Target, m: UserId) {
    match t
    case ByPhone(p) => p.Some? && p.value in dir.byPhone && dir.byPhone[p.value] == m
    case ByUsername(n) => n in dir.byUsername && dir.byUsername[n] == m
    case ByUserId(u) => u == m
    case NoTarget => false
  }

  /**
   * Adding a registered user: the phone's invite to the group goes, and then a pending member row is put in, unless
   * there is a row already.
   */
  lemma AddRegisteredCases(s: State, dir: Directory, u: UserId, g: GroupId, target: Target, m: UserId, now: nat)
    requires ActiveAccount(dir, u) && ActiveAs(s, g, u, {Owner, Admin}) && Names(dir, target, m)
    ensures var (t, o) := Serve(s, dir, AddMember(u, g, target), now);
      && (m !in dir.users ==> (t, o) == (s, Failed(UserNotFound)))
      && (m in dir.users && !dir.users[m].isActive ==> (t, o) == (s, Failed(AccountInactive)))
      && (m == u ==> (t, o) == (s, Failed(InviteSelfForbidden)))
      && (ActiveAccount(dir, m) && m != u ==>
            && t.groups == s.groups && t.invites == s.invites - {(g, dir.users[m].phone)}
            && (o == Done <==> (g, m) !in s.members)
            && (o == Failed(InviteAlreadyPending) <==> (g, m) in s.members && s.members[(g, m)].status.Pending?)
            && (o == Failed(MemberConflict) <==> (g, m) in s.members && s.members[(g, m)].status.Active?)
            && t.members == if o == Done then s.members[(g, m) := MemberRow(Member, Pending, None, Some(u))]
                            else s.members)
  {
    if ActiveAccount(dir, m) && m != u {
      var clear := ClearInvite(g, dir.users[m].phone, u, m);
      assert Begin(s, dir, AddMember(u, g, target), now) == Issue(clear);
      AddRegisteredMeans(s, clear, now);
    }
  }

  lemma AddRegisteredMeans(s: State, c: Command, now: nat)
    requires c.ClearInvite? && c.g in s.groups
    ensures var (t, o) := Finish(s, Issue(c), now);
      && t.groups == s.groups && t.invites == s.invites - {(c.g, c.phone)}
      && (o == Done <==> (c.g, c.member) !in s.members)
      && (o == Failed(InviteAlreadyPending) <==>
            (c.g, c.member) in s.members && s.members[(c.g, c.member)].status.Pending?)
      && (o == Failed(MemberConflict) <==> (c.g, c.member) in s.members && s.members[(c.g, c.member)].status.Active?)
      && t.members == if o == Done then s.members[(c.g, c.member) := MemberRow(Member, Pending, None, Some(c.addedBy))]
                      else s.members
  {
    var s1 := Commit(s, c, now).0;
    FinishStep(s, c, now);
    FinishStep(s1, FindRow(c.g, c.addedBy, c.member), now);
    FinishStep(s1, InsertRow(c.g, c.addedBy, c.member), now);
  }

  /** Adding an unregistered phone leaves one pending invite, good for fourteen days, and no row. */
  lemma AddPhoneCases(s: State, dir: Directory, u: UserId, g: GroupId, phone: Phone, now: nat)
    requires ActiveAccount(dir, u) && ActiveAs(s, g, u, {Owner, Admin}) && phone !in dir.byPhone
    ensures var r := Serve(s, dir, AddMember(u, g, ByPhone(Some(phone))), now);
      r == if phone == dir.users[u].phone then (s, Failed(InviteSelfForbidden))
           else (State(s.groups, s.members,
                       s.invites[(g, phone) := Invite(Some(u), InvitePending, now + 14 * 24 * 3600 * 1000)]), Done)
  {
    if phone != dir.users[u].phone {
      FinishStep(s, PutInvite(g, phone, u, now + INVITE_TTL_MS), now);
    }
  }

  /** A username, or a phone without digits, that matches no one is an error. */
  lemma AddUnknownCases(s: State, dir: Directory, u: UserId, g: GroupId, t: Target, now: nat)
    requires ActiveAccount(dir, u) && ActiveAs(s, g, u, {Owner, Admin})
    requires t == ByPhone(None) || t == NoTarget || (t.ByUsername? && t.name !in dir.byUsername)
    ensures Serve(s, dir, AddMember(u, g, t), now) == (s, Failed(UserNotFound))
  {
  }

  /** The invite becomes a pending row of whoever signs up with that phone, within fourteen days and not later. */
  lemma InvitedPhoneIsClaimed(s: State, dir: Directory, u: UserId, g: GroupId, phone: Phone, now: nat,
                              claimant: UserId, later: nat)
    requires ActiveAccount(dir, u) && ActiveAs(s, g, u, {Owner, Admin}) && phone !in dir.byPhone
    requires phone != dir.users[u].phone && (g, claimant) !in s.members
    ensures var invited := Serve(s, dir, AddMember(u, g, ByPhone(Some(phone))), now).0;
            var claimed := Serve(invited, dir, ClaimInvites(claimant, phone), later).0;
      && (later < now + 14 * 24 * 3600 * 1000 ==>
            && Row(claimed, g, claimant) == Some(MemberRow(Member, Pending, None, Some(u)))
            && (g, phone) !in claimed.invites)
      && (later >= now + 14 * 24 * 3600 * 1000 ==>
            && Row(claimed, g, claimant).None? && (g, phone) in claimed.invites)
  {
    AddPhoneCases(s, dir, u, g, phone, now);
    var invited := Serve(s, dir, AddMember(u, g, ByPhone(Some(phone))), now).0;
    ServeOne(invited, dir, ClaimInvites(claimant, phone), later);
    ClaimMeans(invited, phone, claimant, later);
    assert invited.invites[(g, phone)] == Invite(Some(u), InvitePending, now + 14 * 24 * 3600 * 1000);
    assert LiveInvite(invited, g, phone, later) <==> later < now + 14 * 24 * 3600 * 1000;
  }

  // ---------- Interleaved runs

  type RequestId = nat

  /** The tables, the calls waiting to issue a command, every group id handed out so far, and the clock. */
  datatype World = World(db: State, flights: map<RequestId, Command>, used: set<GroupId>, now: nat)

  datatype Step =
    | Arrive(r: RequestId, dir: Directory, call: Call)
    | Proceed(r: RequestId)
    | Tick(ms: nat)

  /** Group ids are drawn when the group is inserted, and never twice. */
  predicate Enabled(w: World, step: Step) {
    match step
    case Arrive(r, _, _) => r !in w.flights
    case Proceed(r) => r in w.flights && (w.flights[r].InsertGroup? ==> w.flights[r].id !in w.used)
    case Tick(_) => true
  }

  function Landed(w: World, r: RequestId, db: State, p: Progress, used: set<GroupId>): World {
    World(db, if p.Issue? then w.flights[r := p.command] else w.flights - {r}, used, w.now)
  }

  function Next(w: World, step: Step): World
    requires Enabled(w, step)
  {
    match step
    case Arrive(r, dir, call) => Landed(w, r, w.db, Begin(w.db, dir, call, w.now), w.used)
    case Proceed(r) =>
      var c := w.flights[r];
      var (db, p) := Commit(w.db, c, w.now);
      Landed(w, r, db, p, if c.InsertGroup? then w.used + {c.id} else w.used)
    case Tick(ms) => w.(now := w.now + ms)
  }

  const IDLE := World(EMPTY, map[], {}, 0)

  /** A waiting command that rewrites a row aims at a group id already handed out, and not at its owner. */
  ghost predicate Waiting(w: World, r: RequestId)
    requires r in w.flights
  {
    SparesOwner(w.db, w.flights[r]) && (Rewrites(w.flights[r]) ==> w.flights[r].g in w.used)
  }

  predicate Rewrites(c: Command) {
    c.DeleteRow? || c.SetRole? || c.Activate?
  }

  ghost predicate WorldInv(w: World) {
    Sound(w.db) && w.db.groups.Keys <= w.used && forall r :: r in w.flights ==> Waiting(w, r)
  }

  lemma BeginRewritesInGroup(s: State, dir: Directory, call: Call, now: nat)
    requires Sound(s)
    ensures var p := Begin(s, dir, call, now); p.Issue? && Rewrites(p.command) ==> p.command.g in s.groups
  { }

  lemma CommitRewritesNothing(s: State, c: Command, now: nat)
    ensures var p := Commit(s, c, now).1; p.Issue? ==> p.command.FindRow? || p.command.InsertRow?
  { }

  lemma CommitGroups(s: State, c: Command, now: nat)
    ensures Commit(s, c, now).0.groups.Keys <= s.groups.Keys + if c.InsertGroup? then {c.id} else {}
  { }

  lemma ArriveKeepsWorldInv(w: World, r: RequestId, dir: Directory, call: Call)
    requires WorldInv(w) && r !in w.flights
    ensures WorldInv(Next(w, Arrive(r, dir, call)))
  {
    BeginSparesOwner(w.db, dir, call, w.now);
    BeginRewritesInGroup(w.db, dir, call, w.now);
    var v := Next(w, Arrive(r, dir, call));
    forall q | q in v.flights ensures Waiting(v, q) {
      assert q != r ==> Waiting(w, q);
    }
  }

  /** No group comes back: ids already used belong to no later group. */
  ghost predicate Follows(w: World, v: World) {
    && w.used <= v.used
    && (forall g :: g in w.used && g in v.db.groups ==> g in w.db.groups)
    && KeepsOwners(w.db, v.db)
  }

  lemma ProceedKeepsWorldInv(w: World, r: RequestId)
    requires WorldInv(w) && Enabled(w, Proceed(r))
    ensures WorldInv(Next(w, Proceed(r))) && Follows(w, Next(w, Proceed(r)))
  {
    var c := w.flights[r];
    assert Waiting(w, r);
    CommitKeepsSound(w.db, c, w.now);
    CommitRewritesNothing(w.db, c, w.now);
    CommitGroups(w.db, c, w.now);
    var v := Next(w, Proceed(r));
    assert v.db == Commit(w.db, c, w.now).0;
    forall q | q in v.flights ensures Waiting(v, q) {
      if q != r {
        assert Waiting(w, q);
      }
    }
  }

  lemma StepKeepsWorldInv(w: World, step: Step)
    requires WorldInv(w) && Enabled(w, step)
    ensures WorldInv(Next(w, step)) && Follows(w, Next(w, step))
  {
    match step
    case Arrive(r, dir, call) =>
      ArriveKeepsWorldInv(w, r, dir, call);
      OwnersStay(w.db, w.db);
    case Proceed(r) => ProceedKeepsWorldInv(w, r);
    case Tick(_) =>
      OwnersStay(w.db, w.db);
      assert forall r :: r in w.flights ==> Waiting(w, r);
      assert forall r :: r in w.flights ==> Waiting(Next(w, step), r);
  }

  ghost predicate StepAt(worlds: seq<World>, steps: seq<Step>, i: nat)
    requires i < |steps| && i + 1 < |worlds|
  {
    Enabled(worlds[i], steps[i]) && worlds[i + 1] == Next(worlds[i], steps[i])
  }

  ghost predicate IsRun(worlds: seq<World>, steps: seq<Step>) {
    |worlds| == |steps| + 1 && forall i :: 0 <= i < |steps| ==> StepAt(worlds, steps, i)
  }

  lemma {:induction false} ReachableSound(worlds: seq<World>, steps: seq<Step>, k: nat)
    requires IsRun(worlds, steps) && worlds[0] == IDLE && k < |worlds|
    ensures WorldInv(worlds[k])
  {
    if k > 0 {
      ReachableSound(worlds, steps, k - 1);
      assert StepAt(worlds, steps, k - 1);
      StepKeepsWorldInv(worlds[k - 1], steps[k - 1]);
    }
  }

  /** However calls interleave, a group that is still there has the creator and the owner row it was made with. */
  lemma {:induction false} OwnerRowNeverChanges(worlds: seq<World>, steps: seq<Step>, i: nat, j: nat)
    requires IsRun(worlds, steps) && worlds[0] == IDLE && i <= j < |worlds|
    ensures Follows(worlds[i], worlds[j])
    decreases j
  {
    ReachableSound(worlds, steps, i);
    if i == j {
      OwnersStay(worlds[i].db, worlds[i].db);
    } else {
      OwnerRowNeverChanges(worlds, steps, i, j - 1);
      ReachableSound(worlds, steps, j - 1);
      assert StepAt(worlds, steps, j - 1);
      StepKeepsWorldInv(worlds[j - 1], steps[j - 1]);
      FollowsIsTransitive(worlds[i], worlds[j - 1], worlds[j]);
    }
  }

  lemma FollowsIsTransitive(w: World, v: World, x: World)
    requires Follows(w, v) && Follows(v, x) && w.db.groups.Keys <= w.used
    ensures Follows(w, x)
  { }

  /** One run after another, from where the first ends. */
  lemma JoinRuns(a: seq<World>, s: seq<Step>, b: seq<World>, t: seq<Step>)
    requires IsRun(a, s) && IsRun(b, t) && a[|s|] == b[0]
    ensures IsRun(a + b[1..], s + t)
    ensures (a + b[1..])[0] == a[0] && (a + b[1..])[|s + t|] == b[|t|]
  {
    var worlds, steps := a + b[1..], s + t;
    forall i | 0 <= i < |steps| ensures StepAt(worlds, steps, i) {
      if i < |s| {
        assert StepAt(a, s, i);
      } else {
        assert StepAt(b, t, i - |s|);
        assert worlds[i] == b[i - |s|];
      }
    }
  }

  lemma OneStepRun(w: World, step: Step)
    requires Enabled(w, step)
    ensures IsRun([w, Next(w, step)], [step])
  {
    assert StepAt([w, Next(w, step)], [step], 0);
  }

  /** A waiting call that proceeds without interference finishes as `Finish` says. */
  lemma {:induction false} FinishIsARun(w: World, r: RequestId) returns (worlds: seq<World>, steps: seq<Step>)
    requires r in w.flights && (w.flights[r].InsertGroup? ==> w.flights[r].id !in w.used)
    ensures IsRun(worlds, steps) && worlds[0] == w
    ensures worlds[|steps|].db == Finish(w.db, Issue(w.flights[r]), w.now).0
    ensures worlds[|steps|].flights == w.flights - {r}
    decreases CommandsLeft(Issue(w.flights[r]))
  {
    var v := Next(w, Proceed(r));
    var p := Commit(w.db, w.flights[r], w.now).1;
    OneStepRun(w, Proceed(r));
    FinishStep(w.db, w.flights[r], w.now);
    worlds, steps := [w, v], [Proceed(r)];
    if p.Issue? {
      CommitRewritesNothing(w.db, w.flights[r], w.now);
      assert v.flights - {r} == w.flights - {r};
      var rest, more := FinishIsARun(v, r);
      JoinRuns(worlds, steps, rest, more);
      worlds, steps := worlds + rest[1..], steps + more;
    }
  }

  /** A call run to completion is a run in which no other call takes a step. */
  lemma ServeIsARun(w: World, dir: Directory, call: Call, r: RequestId) returns (worlds: seq<World>, steps: seq<Step>)
    requires r !in w.flights && (call.CreateGroup? ==> call.id !in w.used)
    ensures IsRun(worlds, steps) && worlds[0] == w
    ensures worlds[|steps|].db == Serve(w.db, dir, call, w.now).0 && worlds[|steps|].flights == w.flights
  {
    var step := Arrive(r, dir, call);
    var v := Next(w, step);
    BeginIssues(w.db, dir, call, w.now);
    OneStepRun(w, step);
    worlds, steps := [w, v], [step];
    assert v.flights - {r} == w.flights;
    if r in v.flights {
      var rest, more := FinishIsARun(v, r);
      JoinRuns(worlds, steps, rest, more);
      worlds, steps := worlds + rest[1..], steps + more;
    }
  }

  lemma RemovalRun(w: World, dir: Directory, g: GroupId, owner: UserId, m: UserId, r: RequestId)
    returns (worlds: seq<World>, steps: seq<Step>)
    requires r !in w.flights && RequireUser(dir, owner).Ok? && RequireOwner(w.db, owner, g).Ok?
    requires Row(w.db, g, m).Some? && Row(w.db, g, m).value.role.Member?
    ensures IsRun(worlds, steps) && worlds[0] == w
    ensures worlds[|steps|] == w.(db := w.db.(members := w.db.members - {(g, m)}))
  {
    steps := [Arrive(r, dir, RemoveMember(owner, g, m)), Proceed(r)];
    var asked := Next(w, steps[0]);
    assert asked.flights == w.flights[r := DeleteRow(g, m)];
    assert asked.flights - {r} == w.flights;
    worlds := [w, asked, Next(asked, steps[1])];
    assert StepAt(worlds, steps, 0) && StepAt(worlds, steps, 1);
  }

  lemma InvitationRun(w: World, dir: Directory, g: GroupId, owner: UserId, m: UserId, r: RequestId)
    returns (worlds: seq<World>, steps: seq<Step>)
    requires r !in w.flights && RequireUser(dir, owner).Ok? && RequireUser(dir, m).Ok? && m != owner
    requires RequireOwner(w.db, owner, g).Ok? && (g, m) !in w.db.members
    ensures IsRun(worlds, steps) && worlds[0] == w
    ensures worlds[|steps|].db.members == w.db.members[(g, m) := MemberRow(Member, Pending, None, Some(owner))]
    ensures worlds[|steps|].flights == w.flights
  {
    steps := [Arrive(r, dir, AddMember(owner, g, ByUserId(m))), Proceed(r), Proceed(r), Proceed(r)];
    var asked := Next(w, steps[0]);
    assert asked.flights == w.flights[r := ClearInvite(g, dir.users[m].phone, owner, m)];
    var cleared := Next(asked, steps[1]);
    var found := Next(cleared, steps[2]);
    assert found.flights == w.flights[r := InsertRow(g, owner, m)];
    assert found.flights - {r} == w.flights;
    worlds := [w, asked, cleared, found, Next(found, steps[3])];
    assert StepAt(worlds, steps, 0) && StepAt(worlds, steps, 1) && StepAt(worlds, steps, 2) && StepAt(worlds, steps, 3);
  }

  /**
   * From any state in which an owner can promote an active member: a promotion that has read the row, and commits after
   * the member was removed and invited again, leaves an admin who is only pending.
   */
  lemma LatePromotionMakesAPendingAdmin(w: World, dir: Directory, g: GroupId, owner: UserId, m: UserId)
    returns (worlds: seq<World>, steps: seq<Step>)
    requires w.flights == map[] && RequireOwner(w.db, owner, g).Ok? && m != owner
    requires RequireUser(dir, owner).Ok? && RequireUser(dir, m).Ok?
    requires Row(w.db, g, m).Some? && Row(w.db, g, m).value.role.Member? && Row(w.db, g, m).value.status.Active?
    ensures IsRun(worlds, steps) && worlds[0] == w
    ensures Row(worlds[|steps|].db, g, m) == Some(MemberRow(Admin, Pending, None, Some(owner)))
  {
    var promote := Arrive(1, dir, UpdateMemberRole(owner, g, m, true));
    var asked := Next(w, promote);
    assert asked.flights == map[1 := SetRole(g, m, Admin)];
    OneStepRun(w, promote);
    var a, s := RemovalRun(asked, dir, g, owner, m, 2);
    JoinRuns([w, asked], [promote], a, s);
    var b, t := InvitationRun(a[|s|], dir, g, owner, m, 2);
    var soFar, taken := [w, asked] + a[1..], [promote] + s;
    JoinRuns(soFar, taken, b, t);
    var last := b[|t|];
    OneStepRun(last, Proceed(1));
    JoinRuns(soFar + b[1..], taken + t, [last, Next(last, Proceed(1))], [Proceed(1)]);
    worlds, steps := soFar + b[1..] + [last, Next(last, Proceed(1))][1..], taken + t + [Proceed(1)];
  }

  // ---------- The service over its tables

  /** What the claim reports for each row it makes. */
  datatype ClaimReport = ClaimReport(g: GroupId, inviter: Option<UserId>, invitee: UserId)

  /** Exactly one report for each group among these in which the user had no row. */
  ghost predicate Reported(s: State, phone: Phone, user: UserId, claimed: set<GroupId>, reports: seq<ClaimReport>)
    requires forall g :: g in claimed ==> (g, phone) in s.invites
  {
    && (forall r :: r in reports <==>
          && r.g in claimed && (r.g, user) !in s.members
          && r.inviter == s.invites[(r.g, phone)].invitedBy && r.invitee == user)
    && (forall i, j :: 0 <= i < j < |reports| ==> reports[i] != reports[j])
  }

  /** Working off one more invite. */
  lemma ClaimOneMore(s: State, phone: Phone, user: UserId, claimed: set<GroupId>, g: GroupId)
    requires forall h :: h in claimed + {g} ==> (h, phone) in s.invites
    requires g !in claimed
    ensures var was := Claimed(s, phone, user, claimed);
            var t := Claimed(s, phone, user, claimed + {g});
            var row := MemberRow(Member, Pending, None, s.invites[(g, phone)].invitedBy);
            && (g, phone) in was.invites && was.invites[(g, phone)] == s.invites[(g, phone)]
            && ((g, user) in was.members <==> (g, user) in s.members)
            && t.members == (if (g, user) in s.members then was.members else was.members[(g, user) := row])
            && t.invites == was.invites - {(g, phone)}
  {
    RowsOneMore(s, phone, user, claimed, g);
    KeyedOneMore(claimed, g, phone);
  }

  lemma RowsOneMore(s: State, phone: Phone, user: UserId, claimed: set<GroupId>, g: GroupId)
    requires forall h :: h in claimed + {g} ==> (h, phone) in s.invites
    ensures var was := ClaimedRows(s, phone, user, claimed);
            ClaimedRows(s, phone, user, claimed + {g}) ==
            if (g, user) in s.members then was
            else was[(g, user) := MemberRow(Member, Pending, None, s.invites[(g, phone)].invitedBy)]
  {
    KeyedOneMore(claimed, g, user);
  }

  lemma KeyedOneMore(gs: set<GroupId>, g: GroupId, second: nat)
    ensures Keyed(gs + {g}, second) == Keyed(gs, second) + {(g, second)}
  {
    forall k | k in Keyed(gs + {g}, second) ensures k in Keyed(gs, second) + {(g, second)} {
      assert k == (k.0, second);
    }
  }

  lemma ReportOneMore(s: State, phone: Phone, user: UserId, claimed: set<GroupId>, g: GroupId,
                      reports: seq<ClaimReport>)
    requires forall h :: h in claimed + {g} ==> (h, phone) in s.invites
    requires g !in claimed && Reported(s, phone, user, claimed, reports)
    ensures Reported(s, phone, user, claimed + {g},
                     if (g, user) in s.members then reports
                     else reports + [ClaimReport(g, s.invites[(g, phone)].invitedBy, user)])
  {
    forall i | 0 <= i < |reports| ensures reports[i].g != g {
      assert reports[i] in reports;
    }
  }

  class GroupsService {
    var groups: map<GroupId, UserId>
    var members: map<(GroupId, UserId), MemberRow>
    var invites: map<(GroupId, Phone), Invite>

    ghost function Tables(): State
      reads this
    {
      State(groups, members, invites)
    }

    constructor ()
      ensures Tables() == EMPTY
    {
      groups, members, invites := map[], map[], map[];
    }

    method RequireManager(u: UserId, g: GroupId) returns (r: Result<MemberRow, Error>)
      ensures r == RequireAdminOrOwner(Tables(), u, g)
    {
      if g !in groups { return Err(GroupNotFound); }
      if (g, u) !in members || !members[(g, u)].status.Active? { return Err(NotGroupMember); }
      if members[(g, u)].role.Member? { return Err(AdminRequired); }
      return Ok(members[(g, u)]);
    }

    method CreateForUser(dir: Directory, user: UserId, id: GroupId, now: nat) returns (o: Outcome)
      requires id !in groups
      modifies this
      ensures (Tables(), o) == Serve(old(Tables()), dir, CreateGroup(user, id), now)
      ensures Inv(old(Tables())) ==> Inv(Tables()) && KeepsOwners(old(Tables()), Tables())
    {
      if Inv(Tables()) { ServeKeepsInv(Tables(), dir, CreateGroup(user, id), now); }
      var caller := RequireUser(dir, user);
      if caller.Err? { return Failed(caller.error); }
      ServeOne(Tables(), dir, CreateGroup(user, id), now);
      groups := groups[id := user];
      members := members[(id, user) := MemberRow(Owner, Active, Some(now), None)];
      o := Done;
    }

    method DeleteMine(dir: Directory, user: UserId, g: GroupId, now: nat) returns (o: Outcome)
      modifies this
      ensures (Tables(), o) == Serve(old(Tables()), dir, DeleteGroup(user, g), now)
      ensures Inv(old(Tables())) ==> Inv(Tables()) && KeepsOwners(old(Tables()), Tables())
    {
      if Inv(Tables()) { ServeKeepsInv(Tables(), dir, DeleteGroup(user, g), now); }
      var caller := RequireUser(dir, user);
      if caller.Err? { return Failed(caller.error); }
      if g !in groups { return Failed(GroupNotFound); }
      if (g, user) !in members || !members[(g, user)].status.Active? { return Failed(NotGroupMember); }
      if !members[(g, user)].role.Owner? { return Failed(OwnerRequired); }
      ServeOne(Tables(), dir, DeleteGroup(user, g), now);
      groups := groups - {g};
      members := map k | k in members && k.0 != g :: members[k];
      invites := map k | k in invites && k.0 != g :: invites[k];
      o := Done;
    }

    method AddToGroup(dir: Directory, actor: UserId, g: GroupId, target: Target, now: nat) returns (o: Outcome)
      modifies this`members, this`invites
      ensures (Tables(), o) == Serve(old(Tables()), dir, AddMember(actor, g, target), now)
      ensures Inv(old(Tables())) ==> Inv(Tables()) && KeepsOwners(old(Tables()), Tables())
    {
      if Inv(Tables()) { ServeKeepsInv(Tables(), dir, AddMember(actor, g, target), now); }
      var caller := RequireUser(dir, actor);
      if caller.Err? { return Failed(caller.error); }
      var manager := RequireManager(actor, g);
      if manager.Err? { return Failed(manager.error); }
      var resolved := Resolve(dir, target);
      if resolved.None? {
        if !target.ByPhone? || target.phone.None? { return Failed(UserNotFound); }
        if target.phone.value == caller.value.phone { return Failed(InviteSelfForbidden); }
        ghost var put := PutInvite(g, target.phone.value, actor, now + INVITE_TTL_MS);
        FinishStep(Tables(), put, now);
        invites := invites[(g, target.phone.value) := Invite(Some(actor), InvitePending, now + INVITE_TTL_MS)];
        return Done;
      }
      var member := resolved.value;
      if member !in dir.users { return Failed(UserNotFound); }
      if !dir.users[member].isActive { return Failed(AccountInactive); }
      if member == actor { return Failed(InviteSelfForbidden); }
      o := AddRegistered(g, dir.users[member].phone, actor, member, now);
    }

    method AddRegistered(g: GroupId, phone: Phone, actor: UserId, member: UserId, now: nat) returns (o: Outcome)
      requires g in groups
      modifies this`members, this`invites
      ensures (Tables(), o) == Finish(old(Tables()), Issue(ClearInvite(g, phone, actor, member)), now)
    {
      FinishStep(Tables(), ClearInvite(g, phone, actor, member), now);
      invites := invites - {(g, phone)};
      FinishStep(Tables(), FindRow(g, actor, member), now);
      FinishStep(Tables(), InsertRow(g, actor, member), now);
      if (g, member) in members {
        return Failed(if members[(g, member)].status.Pending? then InviteAlreadyPending else MemberConflict);
      }
      members := members[(g, member) := MemberRow(Member, Pending, None, Some(actor))];
      o := Done;
    }

    method RemoveFromGroup(dir: Directory, actor: UserId, g: GroupId, member: UserId, now: nat) returns (o: Outcome)
      modifies this`members
      ensures (Tables(), o) == Serve(old(Tables()), dir, RemoveMember(actor, g, member), now)
      ensures Inv(old(Tables())) ==> Inv(Tables()) && KeepsOwners(old(Tables()), Tables())
    {
      if Inv(Tables()) { ServeKeepsInv(Tables(), dir, RemoveMember(actor, g, member), now); }
      var caller := RequireUser(dir, actor);
      if caller.Err? { return Failed(caller.error); }
      var manager := RequireManager(actor, g);
      if manager.Err? { return Failed(manager.error); }
      if (g, member) !in members { return Failed(MemberNotFound); }
      var row := members[(g, member)];
      if row.role.Owner? { return Failed(OwnerProtected); }
      if row.role.Admin? && !manager.value.role.Owner? && actor != member { return Failed(AdminRemoveRequiresOwner); }
      ServeOne(Tables(), dir, RemoveMember(actor, g, member), now);
      members := members - {(g, member)};
      o := Done;
    }

    method UpdateRole(dir: Directory, actor: UserId, g: GroupId, member: UserId, toAdmin: bool, now: nat)
      returns (o: Outcome)
      modifies this`members
      ensures (Tables(), o) == Serve(old(Tables()), dir, UpdateMemberRole(actor, g, member, toAdmin), now)
      ensures Inv(old(Tables())) ==> Inv(Tables()) && KeepsOwners(old(Tables()), Tables())
    {
      if Inv(Tables()) { ServeKeepsInv(Tables(), dir, UpdateMemberRole(actor, g, member, toAdmin), now); }
      var caller := RequireUser(dir, actor);
      if caller.Err? { return Failed(caller.error); }
      if g !in groups { return Failed(GroupNotFound); }
      if (g, actor) !in members || !members[(g, actor)].status.Active? { return Failed(NotGroupMember); }
      if !members[(g, actor)].role.Owner? { return Failed(OwnerRequired); }
      if (g, member) !in members { return Failed(MemberNotFound); }
      var row := members[(g, member)];
      if !row.status.Active? { return Failed(NotGroupMember); }
      if row.role.Owner? { return Failed(OwnerProtected); }
      var role := if toAdmin then Admin else Member;
      if row.role == role { return Done; }
      ServeOne(Tables(), dir, UpdateMemberRole(actor, g, member, toAdmin), now);
      members := members[(g, member) := row.(role := role)];
      o := Done;
    }

    method AcceptGroupInvite(dir: Directory, user: UserId, g: GroupId, now: nat) returns (o: Outcome)
      modifies this`members
      ensures (Tables(), o) == Serve(old(Tables()), dir, AcceptInvite(user, g), now)
      ensures Inv(old(Tables())) ==> Inv(Tables()) && KeepsOwners(old(Tables()), Tables())
    {
      if Inv(Tables()) { ServeKeepsInv(Tables(), dir, AcceptInvite(user, g), now); }
      var caller := RequireUser(dir, user);
      if caller.Err? { return Failed(caller.error); }
      if g !in groups { return Failed(GroupNotFound); }
      if (g, user) !in members { return Failed(MemberNotFound); }
      var row := members[(g, user)];
      if row.status.Active? { return Done; }
      ServeOne(Tables(), dir, AcceptInvite(user, g), now);
      members := members[(g, user) := row.(status := Active, joinedAt := Some(now))];
      o := Done;
    }

    method DeclineGroupInvite(dir: Directory, user: UserId, g: GroupId, now: nat) returns (o: Outcome)
      modifies this`members
      ensures (Tables(), o) == Serve(old(Tables()), dir, DeclineInvite(user, g), now)
      ensures Inv(old(Tables())) ==> Inv(Tables()) && KeepsOwners(old(Tables()), Tables())
    {
      if Inv(Tables()) { ServeKeepsInv(Tables(), dir, DeclineInvite(user, g), now); }
      var caller := RequireUser(dir, user);
      if caller.Err? { return Failed(caller.error); }
      if g !in groups { return Failed(GroupNotFound); }
      if (g, user) !in members { return Failed(MemberNotFound); }
      if members[(g, user)].status.Active? { return Failed(InviteNotPending); }
      ServeOne(Tables(), dir, DeclineInvite(user, g), now);
      members := members - {(g, user)};
      o := Done;
    }

    /** What the claim loop has done once it has worked off these groups. */
    ghost predicate WorkedOff(was: State, phone: Phone, user: UserId, worked: set<GroupId>, reports: seq<ClaimReport>)
      reads this
    {
      && (forall g :: g in worked ==> (g, phone) in was.invites)
      && Tables() == Claimed(was, phone, user, worked)
      && Reported(was, phone, user, worked, reports)
    }

    /** One turn of the claim loop: the row first, if there is none yet, then the invite. */
    method WorkOff(g: GroupId, phone: Phone, user: UserId, soFar: seq<ClaimReport>, ghost was: State,
                   ghost worked: set<GroupId>)
      returns (reports: seq<ClaimReport>)
      requires (g, phone) in was.invites && g !in worked && WorkedOff(was, phone, user, worked, soFar)
      modifies this`members, this`invites
      ensures WorkedOff(was, phone, user, worked + {g}, reports)
    {
      ClaimOneMore(was, phone, user, worked, g);
      ReportOneMore(was, phone, user, worked, g, soFar);
      var invite := invites[(g, phone)];
      reports := soFar;
      if (g, user) !in members {
        members := members[(g, user) := MemberRow(Member, Pending, None, invite.invitedBy)];
        reports := reports + [ClaimReport(g, invite.invitedBy, user)];
      }
      invites := invites - {(g, phone)};
    }

    /** The invites come in no particular order; each new pending row is reported once. */
    method WorkOffAll(live: set<GroupId>, phone: Phone, user: UserId) returns (reports: seq<ClaimReport>)
      requires forall g :: g in live ==> (g, phone) in invites
      modifies this`members, this`invites
      ensures WorkedOff(old(Tables()), phone, user, live, reports)
    {
      ghost var was := Tables();
      var rest := live;
      ghost var worked: set<GroupId> := {};
      reports := [];
      ClaimNone(was, phone, user);
      while rest != {}
        invariant rest == live - worked && worked <= live
        invariant WorkedOff(was, phone, user, worked, reports)
        decreases |rest|
      {
        var g :| g in rest;
        OneLess(live, worked, g);
        reports := WorkOff(g, phone, user, reports, was, worked);
        rest, worked := rest - {g}, worked + {g};
      }
      NoneLeft(live, worked);
    }

    method ClaimPendingForNewUser(phone: Phone, user: UserId, now: nat) returns (reports: seq<ClaimReport>)
      modifies this`members, this`invites
      ensures Tables() == Claim(old(Tables()), phone, user, now)
      ensures Reported(old(Tables()), phone, user, LiveGroups(old(Tables()), phone, now), reports)
      ensures Sound(old(Tables())) ==> Sound(Tables()) && KeepsOwners(old(Tables()), Tables())
    {
      if Sound(Tables()) { ClaimKeepsSound(Tables(), phone, user, now); }
      reports := WorkOffAll(LiveGroups(State(groups, members, invites), phone, now), phone, user);
    }
  }

  lemma OneLess(live: set<GroupId>, worked: set<GroupId>, g: GroupId)
    requires worked <= live && g in live - worked
    ensures live - worked - {g} == live - (worked + {g}) && worked + {g} <= live
  { }

  lemma NoneLeft(live: set<GroupId>, worked: set<GroupId>)
    requires worked <= live && live - worked == {}
    ensures worked == live
  {
    assert forall g :: g in live ==> g in worked || g in live - worked;
  }

  lemma ClaimNone(s: State, phone: Phone, user: UserId)
    ensures Claimed(s, phone, user, {}) == s
  { }
}
