/**
 What every endpoint answers, in terms of rows and held permissions: a request is accepted exactly
 when none of five objections applies, each error is answered for its own objection only, and a
 refused request leaves the tables as they were but for two partial effects.
 */
module Answers {
  import opened Common
  import opened Iam

  // -- Rows and permissions, spelled out -----------------------------------------------------

  predicate Unexpired(e: Expiry, now: int) {
    match e
    case None => true
    case Some(t) => now < t
  }

  predicate Present(db: Db, u: UserId) {
    u in db.users && db.users[u].active
  }

  /** What a role passes on: the compiled set for ADMIN, OPERATOR and USER, else its stored codes. */
  predicate Carries(role: Role, p: Permission) {
    match role.name
    case BuiltIn(ADMIN) => p.Known?
    case BuiltIn(OPERATOR) => p.Known? && BuiltInGrants(OPERATOR, p.code)
    case BuiltIn(USER) => p.Known? && BuiltInGrants(USER, p.code)
    case _ => p in role.stored
  }

  predicate GroupCarries(db: Db, g: GroupId, p: Permission) {
    p.Known? && exists r :: r in db.roles && (g, r) in db.groupRoles && Unexpired(db.groupRoles[(g, r)], db.now) && Carries(db.roles[r], p)
  }

  ghost predicate Tops(db: Db, a: UserId, t: UserId) {
    t == a || !exists p :: Holds(db, t, p) && !Holds(db, a, p)
  }

  predicate AdminRow(db: Db, u: UserId) {
    exists r :: r in db.roles && (u, r) in db.userRoles && Unexpired(db.userRoles[(u, r)], db.now) && db.roles[r].name == BuiltIn(ADMIN)
  }

  predicate Replaceable(db: Db, t: UserId) {
    exists o :: o in db.users && o != t && Present(db, o) && AdminRow(db, o)
  }

  predicate Initial(db: Db, t: UserId) {
    t in db.users && db.users[t].initialAdmin
  }

  /** The initial administrator, and the last active one. */
  predicate Shielded(db: Db, t: UserId) {
    Initial(db, t) || (AdminRow(db, t) && !Replaceable(db, t))
  }

  predicate Reaches(db: Db, u: UserId, v: VmId) {
    || ((u, v) in db.vmAccess && Unexpired(db.vmAccess[(u, v)].expires, db.now))
    || (exists k :: k in db.groupVms && k.1 == v && Unexpired(db.groupVms[k].expires, db.now) &&
                    (k.0, u) in db.members && Unexpired(db.members[(k.0, u)], db.now))
  }

  // -- The five objections ---------------------------------------------------------------------

  /** The permissions an endpoint asks for. */
  function Asks(req: Request): set<Code> {
    if req.ReqCreateRole? || req.ReqEditRole? || req.ReqDeleteRole? then {RolesManage}
    else if req.ReqGrantVm? || req.ReqRevokeVm? then {GroupsManage, VmEdit}
    else if req.ReqCreateGroup? || req.ReqRenameGroup? || req.ReqDeleteGroup? || req.ReqAddMember? || req.ReqRemoveMember?
         || req.ReqLinkRole? || req.ReqUnlinkRole? then {GroupsManage}
    else {UsersManage}
  }

  ghost predicate Lacks(db: Db, a: UserId, req: Request) {
    exists c :: c in Asks(req) && !Holds(db, a, Known(c))
  }

  /** A record the request names is not there. */
  predicate Absent(db: Db, req: Request) {
    match req
    case ReqEditRole(x, _, _) => x !in db.roles
    case ReqDeleteRole(x) => x !in db.roles
    case ReqAssignRole(t, x, _) => t !in db.users || x !in db.roles
    case ReqRemoveRole(t, x) => t !in db.users || x !in db.roles
    case ReqGrantPermission(t, _, _) => t !in db.users
    case ReqRevokePermission(t, _) => t !in db.users
    case ReqRenameGroup(x, _) => x !in db.groups
    case ReqDeleteGroup(x) => x !in db.groups
    case ReqAddMember(x, t, _) => x !in db.groups || t !in db.users
    case ReqRemoveMember(x, _) => x !in db.groups
    case ReqLinkRole(x, y, _) => x !in db.groups || y !in db.roles
    case ReqUnlinkRole(x, _) => x !in db.groups
    case ReqGrantVm(x, w, _, _) => x !in db.groups || w !in db.vms
    case ReqRevokeVm(x, _) => x !in db.groups
    case ReqCreateUser(_, _, _, kind) => RoleIdOf(kind) !in db.roles
    case ReqUpdateUser(t, _, kind, _) => t !in db.users || (kind.Some? && RoleIdOf(kind.value) !in db.roles)
    case ReqDeleteUser(t) => t !in db.users
    case ReqApprove(q, _, kind) => q !in db.pending || RoleIdOf(kind) !in db.roles
    case _ => false
  }

  /** A name or an identifier is taken, or the join request is more than thirty days old. */
  predicate Clashes(db: Db, req: Request) {
    match req
    case ReqCreateRole(x, name, _) => x in db.roles || exists r :: r in db.roles && db.roles[r].name == name
    case ReqEditRole(x, Some(name), _) =>
      x in db.roles && db.roles[x].name != name && exists r :: r in db.roles && db.roles[r].name == name
    case ReqCreateGroup(x, name) => x in db.groups || exists g :: g in db.groups && db.groups[g] == name
    case ReqRenameGroup(x, Some(name)) => x in db.groups && db.groups[x] != name && exists g :: g in db.groups && db.groups[g] == name
    case ReqCreateUser(t, name, _, _) => t in db.users || exists u :: u in db.users && db.users[u].username == name
    case ReqApprove(q, t, _) =>
      q in db.pending && (db.pending[q].createdAt < db.now - 2592000000 || t in db.users ||
                          exists u :: u in db.users && db.users[u].username == db.pending[q].username)
    case _ => false
  }

  /** The request asks for what nobody may ask for: an unknown code, a past date, a protected or own account. */
  predicate Improper(db: Db, a: UserId, req: Request) {
    match req
    case ReqCreateRole(_, _, perms) => exists p :: p in perms && p.Unknown?
    case ReqEditRole(_, _, Some(perms)) => exists p :: p in perms && p.Unknown?
    case ReqAssignRole(_, _, e) => !Unexpired(e, db.now)
    case ReqRemoveRole(t, x) =>
      x in db.roles && db.roles[x].name == BuiltIn(ADMIN) && (Initial(db, t) || (t == a && !Replaceable(db, t)))
    case ReqGrantPermission(_, p, e) => p.Unknown? || !Unexpired(e, db.now)
    case ReqAddMember(_, _, e) => !Unexpired(e, db.now)
    case ReqLinkRole(_, _, e) => !Unexpired(e, db.now)
    case ReqGrantVm(_, _, _, e) => !Unexpired(e, db.now)
    case ReqUpdateUser(t, active, kind, _) =>
      || kind == Some(GUEST)
      || (active == Some(false) && (t == a || Shielded(db, t)))
      || (kind.Some? && (Initial(db, t) || (kind.value != ADMIN && (t == a || Shielded(db, t)))))
    case ReqDeleteUser(t) => t == a || Shielded(db, t)
    case ReqApprove(_, _, kind) => kind == GUEST
    case _ => false
  }

  ghost predicate PassesUnheld(db: Db, a: UserId, r: RoleId) {
    r in db.roles && exists p :: Carries(db.roles[r], p) && !Holds(db, a, p)
  }

  /** The caller would pass on what it does not hold, act on somebody who holds more, or touch what is closed to it. */
  ghost predicate Overreaches(db: Db, a: UserId, req: Request) {
    match req
    case ReqCreateRole(_, _, perms) => exists p :: p in perms && !Holds(db, a, p)
    case ReqEditRole(x, _, perms) =>
      (x in db.roles && db.roles[x].isSystem) || (perms.Some? && exists p :: p in perms.value && !Holds(db, a, p))
    case ReqDeleteRole(x) => x in db.roles && db.roles[x].isSystem
    case ReqAssignRole(t, x, _) => !Tops(db, a, t) || PassesUnheld(db, a, x)
    case ReqRemoveRole(t, _) => !Tops(db, a, t)
    case ReqGrantPermission(t, p, _) => !Tops(db, a, t) || !Holds(db, a, p)
    case ReqRevokePermission(t, _) => !Tops(db, a, t)
    case ReqAddMember(x, t, _) => !Tops(db, a, t) || exists p :: GroupCarries(db, x, p) && !Holds(db, a, p)
    case ReqRemoveMember(x, t) => !Tops(db, a, t) || exists p :: GroupCarries(db, x, p) && !Holds(db, a, p)
    case ReqLinkRole(_, y, _) => PassesUnheld(db, a, y)
    case ReqUnlinkRole(_, y) => PassesUnheld(db, a, y)
    case ReqGrantVm(_, w, _, _) => w in db.vms && db.vms[w].privacy && !Reaches(db, a, w) && db.vms[w].owner != Some(a)
    case ReqCreateUser(_, _, _, kind) => PassesUnheld(db, a, RoleIdOf(kind))
    case ReqUpdateUser(t, _, kind, _) => !Tops(db, a, t) || (kind.Some? && PassesUnheld(db, a, RoleIdOf(kind.value)))
    case ReqDeleteUser(t) => !Tops(db, a, t)
    case ReqApprove(_, _, kind) => PassesUnheld(db, a, RoleIdOf(kind))
    case _ => false
  }

  /** Accepted exactly when nothing is objected; an error names an objection that applies. */
  ghost predicate AnsweredRightly(db: Db, a: UserId, req: Request, reply: Reply) {
    && (reply == Done <==>
          Present(db, a) && !Lacks(db, a, req) && !Absent(db, req) && !Clashes(db, req) && !Improper(db, a, req) && !Overreaches(db, a, req))
    && (reply == Refused(Unauthorized) <==> !Present(db, a))
    && (reply == Refused(Forbidden) ==> Lacks(db, a, req) || Overreaches(db, a, req))
    && (Present(db, a) && Lacks(db, a, req) ==> reply == Refused(Forbidden))
    && (reply == Refused(NotFound) ==> Absent(db, req))
    && (reply == Refused(Conflict) ==> Clashes(db, req))
    && (reply == Refused(Validation) ==> Improper(db, a, req))
  }

  // -- The model's words in these terms ----------------------------------------------------------

  lemma Confers(db: Db, a: UserId, role: Role)
    ensures MayConfer(db, a, RoleConfers(role)) <==> !exists p :: Carries(role, p) && !Holds(db, a, p)
  {
    hide Holds;
    forall p: Permission ensures p in RoleConfers(role) <==> Carries(role, p) {
      assert forall kind: Kind, c: Code :: Known(c) in BuiltInPermissions(kind) <==> BuiltInGrants(kind, c);
      assert forall c: Code :: BuiltInGrants(ADMIN, c);
    }
  }

  lemma GroupConfersCarried(db: Db, a: UserId, g: GroupId)
    ensures MayConfer(db, a, GroupConfers(db, g)) <==> !exists p :: GroupCarries(db, g, p) && !Holds(db, a, p)
  {
    hide Holds;
    forall p: Permission ensures p in GroupConfers(db, g) <==> GroupCarries(db, g, p) {
      forall r | r in db.roles ensures p in RoleConfers(db.roles[r]) <==> Carries(db.roles[r], p) {
        assert forall kind: Kind, c: Code :: Known(c) in BuiltInPermissions(kind) <==> BuiltInGrants(kind, c);
        assert forall c: Code :: BuiltInGrants(ADMIN, c);
      }
      hide RoleConfers, Carries;
    }
    hide GroupConfers, GroupCarries;
  }

  lemma Administers(db: Db, a: UserId, t: UserId)
    ensures CanAdminister(db, a, t) <==> Tops(db, a, t)
  {
    hide Holds;
  }

  lemma Shields(db: Db, t: UserId)
    ensures LiveAdmin(db, t) <==> AdminRow(db, t)
    ensures OtherActiveAdmin(db, t) <==> Replaceable(db, t)
    ensures InitialAdmin(db, t) <==> Initial(db, t)
  {
    forall u ensures LiveAdmin(db, u) <==> AdminRow(db, u) {}
    hide LiveAdmin, AdminRow;
  }

  lemma ReachesOrOwns(db: Db, u: UserId, v: VmId)
    ensures HasAccessOrOwns(db, u, v) <==> Reaches(db, u, v) || (v in db.vms && db.vms[v].owner == Some(u))
  {
  }

  lemma Guards(db: Db, a: UserId, c: Code)
    ensures MayUse(db, a, Known(c)) <==> Present(db, a) && Holds(db, a, Known(c))
    ensures GuardError(db, a) == if Present(db, a) then Forbidden else Unauthorized
  {
    hide Holds;
  }

  // -- Endpoint by endpoint ------------------------------------------------------------------------

  lemma CreateRoleAnswers(db: Db, a: UserId, x: RoleId, name: RoleName, perms: set<Permission>)
    ensures var req := ReqCreateRole(x, name, perms); AnsweredRightly(db, a, req, Serve(db, a, req).reply)
  {
    Guards(db, a, RolesManage);
    hide MayUse, GuardError, Holds, Present, PutRole;
  }

  lemma EditRoleAnswers(db: Db, a: UserId, x: RoleId, name: Option<RoleName>, perms: Option<set<Permission>>)
    ensures var req := ReqEditRole(x, name, perms); AnsweredRightly(db, a, req, Serve(db, a, req).reply)
  {
    Guards(db, a, RolesManage);
    hide MayUse, GuardError, Holds, Present, PatchRole;
  }

  lemma DeleteRoleAnswers(db: Db, a: UserId, x: RoleId)
    ensures var req := ReqDeleteRole(x); AnsweredRightly(db, a, req, Serve(db, a, req).reply)
  {
    Guards(db, a, RolesManage);
    hide MayUse, GuardError, Holds, Present, DropRole;
  }

  lemma AssignRoleAnswers(db: Db, a: UserId, t: UserId, x: RoleId, e: Expiry)
    ensures var req := ReqAssignRole(t, x, e); AnsweredRightly(db, a, req, Serve(db, a, req).reply)
  {
    Guards(db, a, UsersManage);
    Administers(db, a, t);
    if x in db.roles { Confers(db, a, db.roles[x]); }
    hide MayUse, GuardError, Holds, Present, PutUserRole, CanAdminister, Tops, MayConfer, RoleConfers, Carries;
  }

  lemma RemoveRoleAnswers(db: Db, a: UserId, t: UserId, x: RoleId)
    ensures var req := ReqRemoveRole(t, x); AnsweredRightly(db, a, req, Serve(db, a, req).reply)
  {
    Guards(db, a, UsersManage);
    Administers(db, a, t);
    Shields(db, t);
    hide MayUse, GuardError, Holds, Present, DropUserRole, CanAdminister, Tops, LiveAdmin, OtherActiveAdmin, InitialAdmin, Replaceable, Initial, AdminRow;
  }

  lemma GrantPermissionAnswers(db: Db, a: UserId, t: UserId, p: Permission, e: Expiry)
    ensures var req := ReqGrantPermission(t, p, e); AnsweredRightly(db, a, req, Serve(db, a, req).reply)
  {
    Guards(db, a, UsersManage);
    Administers(db, a, t);
    hide MayUse, GuardError, Holds, Present, PutUserPerm, CanAdminister, Tops;
  }

  lemma RevokePermissionAnswers(db: Db, a: UserId, t: UserId, p: Permission)
    ensures var req := ReqRevokePermission(t, p); AnsweredRightly(db, a, req, Serve(db, a, req).reply)
  {
    Guards(db, a, UsersManage);
    Administers(db, a, t);
    hide MayUse, GuardError, Holds, Present, DropUserPerm, CanAdminister, Tops;
  }

  lemma CreateGroupAnswers(db: Db, a: UserId, x: GroupId, name: string)
    ensures var req := ReqCreateGroup(x, name); AnsweredRightly(db, a, req, Serve(db, a, req).reply)
  {
    Guards(db, a, GroupsManage);
    hide MayUse, GuardError, Holds, Present, PutGroup;
  }

  lemma RenameGroupAnswers(db: Db, a: UserId, x: GroupId, name: Option<string>)
    ensures var req := ReqRenameGroup(x, name); AnsweredRightly(db, a, req, Serve(db, a, req).reply)
  {
    Guards(db, a, GroupsManage);
    hide MayUse, GuardError, Holds, Present, PatchGroup;
  }

  lemma DeleteGroupAnswers(db: Db, a: UserId, x: GroupId)
    ensures var req := ReqDeleteGroup(x); AnsweredRightly(db, a, req, Serve(db, a, req).reply)
  {
    Guards(db, a, GroupsManage);
    hide MayUse, GuardError, Holds, Present, DropGroup;
  }

  lemma AddMemberAnswers(db: Db, a: UserId, x: GroupId, t: UserId, e: Expiry)
    ensures var req := ReqAddMember(x, t, e); AnsweredRightly(db, a, req, Serve(db, a, req).reply)
  {
    Guards(db, a, GroupsManage);
    Administers(db, a, t);
    GroupConfersCarried(db, a, x);
    hide MayUse, GuardError, Holds, Present, PutMember, CanAdminister, Tops, MayConfer, GroupConfers, GroupCarries;
  }

  lemma RemoveMemberAnswers(db: Db, a: UserId, x: GroupId, t: UserId)
    ensures var req := ReqRemoveMember(x, t); AnsweredRightly(db, a, req, Serve(db, a, req).reply)
  {
    Guards(db, a, GroupsManage);
    Administers(db, a, t);
    GroupConfersCarried(db, a, x);
    hide MayUse, GuardError, Holds, Present, DropMember, CanAdminister, Tops, MayConfer, GroupConfers, GroupCarries;
  }

  lemma LinkRoleAnswers(db: Db, a: UserId, x: GroupId, y: RoleId, e: Expiry)
    ensures var req := ReqLinkRole(x, y, e); AnsweredRightly(db, a, req, Serve(db, a, req).reply)
  {
    Guards(db, a, GroupsManage);
    if y in db.roles { Confers(db, a, db.roles[y]); }
    hide MayUse, GuardError, Holds, Present, PutLink, MayConfer, RoleConfers, Carries;
  }

  lemma UnlinkRoleAnswers(db: Db, a: UserId, x: GroupId, y: RoleId)
    ensures var req := ReqUnlinkRole(x, y); AnsweredRightly(db, a, req, Serve(db, a, req).reply)
  {
    Guards(db, a, GroupsManage);
    if y in db.roles { Confers(db, a, db.roles[y]); }
    hide MayUse, GuardError, Holds, Present, DropLink, MayConfer, RoleConfers, Carries;
  }

  lemma GrantVmAnswers(db: Db, a: UserId, x: GroupId, w: VmId, ps: Option<set<Protocol>>, e: Expiry)
    ensures var req := ReqGrantVm(x, w, ps, e); AnsweredRightly(db, a, req, Serve(db, a, req).reply)
  {
    Guards(db, a, GroupsManage);
    Guards(db, a, VmEdit);
    ReachesOrOwns(db, a, w);
    hide MayUse, GuardError, Holds, Present, PutGroupVm, HasAccessOrOwns, Reaches;
  }

  lemma RevokeVmAnswers(db: Db, a: UserId, x: GroupId, w: VmId)
    ensures var req := ReqRevokeVm(x, w); AnsweredRightly(db, a, req, Serve(db, a, req).reply)
  {
    Guards(db, a, GroupsManage);
    Guards(db, a, VmEdit);
    hide MayUse, GuardError, Holds, Present, DropGroupVm;
  }

  lemma CreateUserAnswers(db: Db, a: UserId, t: UserId, name: string, secret: string, kind: Kind)
    ensures var req := ReqCreateUser(t, name, secret, kind); AnsweredRightly(db, a, req, Serve(db, a, req).reply)
  {
    Guards(db, a, UsersManage);
    if RoleIdOf(kind) in db.roles { Confers(db, a, db.roles[RoleIdOf(kind)]); }
    hide MayUse, GuardError, Holds, Present, InsertUser, MayConfer, RoleConfers, Carries, RoleIdOf;
  }

  lemma DeleteUserAnswers(db: Db, a: UserId, t: UserId)
    ensures var req := ReqDeleteUser(t); AnsweredRightly(db, a, req, Serve(db, a, req).reply)
  {
    Guards(db, a, UsersManage);
    Administers(db, a, t);
    Shields(db, t);
    hide MayUse, GuardError, Holds, Present, DropUser, CanAdminister, Tops, LiveAdmin, OtherActiveAdmin, InitialAdmin, Replaceable, Initial, AdminRow;
  }

  lemma ApproveAnswers(db: Db, a: UserId, x: RequestId, t: UserId, kind: Kind)
    ensures var req := ReqApprove(x, t, kind); AnsweredRightly(db, a, req, Serve(db, a, req).reply)
  {
    Guards(db, a, UsersManage);
    if RoleIdOf(kind) in db.roles { Confers(db, a, db.roles[RoleIdOf(kind)]); }
    hide MayUse, GuardError, Holds, Present, Admit, DropPending, MayConfer, RoleConfers, Carries, RoleIdOf;
  }

  /** Activation and deactivation touch nothing the later checks look at. */
  lemma ActiveChangesNoCheck(db: Db, a: UserId, t: UserId, active: bool, kind: Kind)
    ensures KindRefusal(SetActive(db, t, active), a, t, kind) == KindRefusal(db, a, t, kind)
  {
    var after := SetActive(db, t, active);
    forall p: Permission ensures Holds(after, a, p) <==> Holds(db, a, p) {
      forall src ensures LiveSource(after, a, p, src) <==> LiveSource(db, a, p, src) { hide RoleResolves; }
      hide LiveSource;
    }
    forall u ensures LiveAdmin(after, u) <==> LiveAdmin(db, u) {}
    assert BuiltInRole(after, kind) == BuiltInRole(db, kind);
    hide Holds, LiveAdmin, BuiltInRole;
    assert OtherActiveAdmin(after, t) <==> OtherActiveAdmin(db, t);
  }

  lemma KindChecks(db: Db, a: UserId, t: UserId, kind: Kind)
    ensures var refusal := KindRefusal(db, a, t, kind);
            && (refusal.None? <==> RoleIdOf(kind) in db.roles && !PassesUnheld(db, a, RoleIdOf(kind)) && !Initial(db, t)
                                   && (kind != ADMIN ==> t != a && !Shielded(db, t)))
            && (refusal == Some(NotFound) ==> RoleIdOf(kind) !in db.roles)
            && (refusal == Some(Forbidden) ==> PassesUnheld(db, a, RoleIdOf(kind)))
            && (refusal == Some(Validation) ==> Initial(db, t) || (kind != ADMIN && (t == a || Shielded(db, t))))
            && refusal != Some(Conflict) && refusal != Some(Unauthorized)
  {
    if RoleIdOf(kind) in db.roles { Confers(db, a, db.roles[RoleIdOf(kind)]); }
    Shields(db, t);
    hide Holds, MayConfer, RoleConfers, Carries, RoleIdOf, LiveAdmin, OtherActiveAdmin, InitialAdmin, Replaceable, Initial, AdminRow;
  }

  lemma ActiveChecks(db: Db, a: UserId, t: UserId, active: Option<bool>)
    ensures var reply := UpdateActive(db, a, t, active).reply;
            reply == if active == Some(false) && (t == a || Shielded(db, t)) then Refused(Validation) else Done
  {
    Shields(db, t);
    hide SetActive, LiveAdmin, OtherActiveAdmin, InitialAdmin, Replaceable, Initial, AdminRow;
  }

  /** The kind is checked against the tables as they were, whatever became of the active flag. */
  lemma UpdateReply(db: Db, a: UserId, t: UserId, active: Option<bool>, kind: Option<Kind>, secret: Option<string>)
    requires UpdateUserRefusal(db, a, t, kind).None?
    ensures var first := UpdateActive(db, a, t, active);
            var refusal := if kind.None? then None else KindRefusal(db, a, t, kind.value);
            var reply := UpdateUser(db, a, t, active, kind, secret).reply;
            reply == if first.reply.Refused? then first.reply else if refusal.Some? then Refused(refusal.value) else Done
  {
    if active.Some? && kind.Some? { ActiveChangesNoCheck(db, a, t, active.value, kind.value); }
    hide UpdateUserRefusal, KindRefusal, DeactivationRefusal, SetActive, ReplaceRoles, SetPassword;
  }

  lemma UpdateGuard(db: Db, a: UserId, t: UserId, kind: Option<Kind>)
    ensures var refusal := UpdateUserRefusal(db, a, t, kind);
            refusal == if !Present(db, a) then Some(Unauthorized)
                       else if !Holds(db, a, Known(UsersManage)) then Some(Forbidden)
                       else if kind == Some(GUEST) then Some(Validation)
                       else if t !in db.users then Some(NotFound)
                       else if !Tops(db, a, t) then Some(Forbidden)
                       else None
  {
    hide MayUse, GuardError, Holds, Present, CanAdminister, Tops;
    Guards(db, a, UsersManage);
    Administers(db, a, t);
  }

  lemma UpdateServed(db: Db, a: UserId, t: UserId, active: Option<bool>, kind: Option<Kind>, secret: Option<string>)
    ensures var guard := UpdateUserRefusal(db, a, t, kind);
            var reply := Serve(db, a, ReqUpdateUser(t, active, kind, secret)).reply;
            reply == if guard.Some? then Refused(guard.value)
                     else if active == Some(false) && (t == a || Shielded(db, t)) then Refused(Validation)
                     else if kind.Some? && KindRefusal(db, a, t, kind.value).Some? then Refused(KindRefusal(db, a, t, kind.value).value)
                     else Done
  {
    hide UpdateUserRefusal, KindRefusal, UpdateActive, UpdateKind, SetPassword, Shielded;
    ActiveChecks(db, a, t, active);
    if UpdateUserRefusal(db, a, t, kind).None? { UpdateReply(db, a, t, active, kind, secret); }
  }

  lemma UpdateUserAnswers(db: Db, a: UserId, t: UserId, active: Option<bool>, kind: Option<Kind>, secret: Option<string>)
    ensures var req := ReqUpdateUser(t, active, kind, secret); AnsweredRightly(db, a, req, Serve(db, a, req).reply)
  {
    hide Serve, Holds, Present, Tops, UpdateUserRefusal, KindRefusal, PassesUnheld, Shielded, Initial, RoleIdOf;
    UpdateGuard(db, a, t, kind);
    UpdateServed(db, a, t, active, kind, secret);
    if kind.Some? { KindChecks(db, a, t, kind.value); }
    assert Lacks(db, a, ReqUpdateUser(t, active, kind, secret)) <==> !Holds(db, a, Known(UsersManage));
    assert Initial(db, t) ==> Shielded(db, t) by { InitialIsShielded(db, t); }
  }

  lemma InitialIsShielded(db: Db, t: UserId)
    ensures Initial(db, t) ==> Shielded(db, t)
  {
  }

  /** Every endpoint answers rightly. */
  lemma EveryAnswer(db: Db, a: UserId, req: Request)
    ensures AnsweredRightly(db, a, req, Serve(db, a, req).reply)
  {
    hide Serve, AnsweredRightly;
    match req
    case ReqCreateRole(x, name, perms) => CreateRoleAnswers(db, a, x, name, perms);
    case ReqEditRole(x, name, perms) => EditRoleAnswers(db, a, x, name, perms);
    case ReqDeleteRole(x) => DeleteRoleAnswers(db, a, x);
    case ReqAssignRole(t, x, e) => AssignRoleAnswers(db, a, t, x, e);
    case ReqRemoveRole(t, x) => RemoveRoleAnswers(db, a, t, x);
    case ReqGrantPermission(t, p, e) => GrantPermissionAnswers(db, a, t, p, e);
    case ReqRevokePermission(t, p) => RevokePermissionAnswers(db, a, t, p);
    case ReqCreateGroup(x, name) => CreateGroupAnswers(db, a, x, name);
    case ReqRenameGroup(x, name) => RenameGroupAnswers(db, a, x, name);
    case ReqDeleteGroup(x) => DeleteGroupAnswers(db, a, x);
    case ReqAddMember(x, t, e) => AddMemberAnswers(db, a, x, t, e);
    case ReqRemoveMember(x, t) => RemoveMemberAnswers(db, a, x, t);
    case ReqLinkRole(x, y, e) => LinkRoleAnswers(db, a, x, y, e);
    case ReqUnlinkRole(x, y) => UnlinkRoleAnswers(db, a, x, y);
    case ReqGrantVm(x, w, ps, e) => GrantVmAnswers(db, a, x, w, ps, e);
    case ReqRevokeVm(x, w) => RevokeVmAnswers(db, a, x, w);
    case ReqCreateUser(t, name, secret, kind) => CreateUserAnswers(db, a, t, name, secret, kind);
    case ReqUpdateUser(t, active, kind, secret) => UpdateUserAnswers(db, a, t, active, kind, secret);
    case ReqDeleteUser(t) => DeleteUserAnswers(db, a, t);
    case ReqApprove(x, t, kind) => ApproveAnswers(db, a, x, t, kind);
  }
}
