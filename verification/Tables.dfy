/**
 What every event keeps about the shape of the tables: link rows refer to existing
 records, and the reserved role names stay on the seeded, protected roles.
 */
module Tables {
  import opened Common
  import opened Iam

  // -- Table invariants -------------------------------------------------------

  /** Every row of a link table refers to existing records on both sides. */
  ghost predicate Refers<A(!new), B(!new), V>(rows: map<(A, B), V>, lefts: set<A>, rights: set<B>) {
    forall a, b :: (a, b) in rows ==> a in lefts && b in rights
  }

  /** Every row refers to an existing record on the left. */
  ghost predicate RefersLeft<A(!new), B(!new), V>(rows: map<(A, B), V>, lefts: set<A>) {
    forall a, b :: (a, b) in rows ==> a in lefts
  }

  /** Stored codes are catalog codes, and the reserved names sit on the seeded system roles only. */
  ghost predicate RolesOk(roles: map<RoleId, Role>) {
    && (forall r :: r in roles ==> RoleOk(r, roles[r]))
    && (forall kind :: RoleIdOf(kind) in roles && roles[RoleIdOf(kind)].name == BuiltIn(kind))
  }

  ghost predicate RoleOk(r: RoleId, role: Role) {
    && InCatalog(role.stored)
    && (role.name.BuiltIn? ==> r == RoleIdOf(role.name.kind) && role.isSystem && role.stored == {})
  }

  ghost predicate WellFormed(db: Db) {
    && Refers(db.userRoles, db.users.Keys, db.roles.Keys)
    && RefersLeft(db.userPerms, db.users.Keys)
    && Refers(db.members, db.groups.Keys, db.users.Keys)
    && Refers(db.groupRoles, db.groups.Keys, db.roles.Keys)
    && RefersLeft(db.groupVms, db.groups.Keys)
    && RefersLeft(db.vmAccess, db.users.Keys)
    && RolesOk(db.roles)
  }

  lemma BuiltInsAreTaken(db: Db, name: RoleName)
    requires WellFormed(db) && name.BuiltIn?
    ensures RoleNameTaken(db, name)
  {
    assert RoleIdOf(name.kind) in db.roles && db.roles[RoleIdOf(name.kind)].name == name;
  }

  /** The least the migrations leave: the four built-in roles. The presets are further system roles. */
  function Seeded(now: int): Db {
    var roles := map[1 := Role(BuiltIn(ADMIN), true, {}), 2 := Role(BuiltIn(OPERATOR), true, {}),
                     3 := Role(BuiltIn(USER), true, {}), 4 := Role(BuiltIn(GUEST), true, {})];
    Db(now, map[], roles, map[], map[], map[], map[], map[], map[], map[], map[], map[])
  }

  lemma SeededIsWellFormed(now: int)
    ensures WellFormed(Seeded(now))
  {
    var roles := Seeded(now).roles;
    forall kind: Kind ensures RoleIdOf(kind) in roles && roles[RoleIdOf(kind)].name == BuiltIn(kind) {
      match kind case ADMIN => case OPERATOR => case USER => case GUEST =>
    }
  }

  // -- Foreign keys and reserved roles survive every write ----------------------

  lemma PutRoleKeeps(db: Db, r: RoleId, role: Role)
    requires WellFormed(db) && RoleOk(r, role)
    requires r in db.roles ==> !db.roles[r].isSystem
    ensures WellFormed(PutRole(db, r, role))
  {
    assert forall kind :: RoleOk(RoleIdOf(kind), db.roles[RoleIdOf(kind)]);
  }

  lemma DropRoleKeeps(db: Db, r: RoleId)
    requires WellFormed(db)
    requires r in db.roles ==> !db.roles[r].isSystem
    ensures WellFormed(DropRole(db, r))
  {
    assert forall kind :: RoleOk(RoleIdOf(kind), db.roles[RoleIdOf(kind)]);
  }

  lemma PutUserRoleKeeps(db: Db, u: UserId, r: RoleId, e: Expiry)
    requires WellFormed(db) && u in db.users && r in db.roles
    ensures WellFormed(PutUserRole(db, u, r, e))
  {
    hide RolesOk;
  }

  lemma DropUserRoleKeeps(db: Db, u: UserId, r: RoleId)
    requires WellFormed(db)
    ensures WellFormed(DropUserRole(db, u, r))
  {
    hide RolesOk;
  }

  lemma PutUserPermKeeps(db: Db, u: UserId, p: Permission, e: Expiry)
    requires WellFormed(db) && u in db.users
    ensures WellFormed(PutUserPerm(db, u, p, e))
  {
    hide RolesOk;
  }

  lemma DropUserPermKeeps(db: Db, u: UserId, p: Permission)
    requires WellFormed(db)
    ensures WellFormed(DropUserPerm(db, u, p))
  {
    hide RolesOk;
  }

  lemma PutMemberKeeps(db: Db, g: GroupId, u: UserId, e: Expiry)
    requires WellFormed(db) && g in db.groups && u in db.users
    ensures WellFormed(PutMember(db, g, u, e))
  {
    hide RolesOk;
  }

  lemma DropMemberKeeps(db: Db, g: GroupId, u: UserId)
    requires WellFormed(db)
    ensures WellFormed(DropMember(db, g, u))
  {
    hide RolesOk;
  }

  lemma PutLinkKeeps(db: Db, g: GroupId, r: RoleId, e: Expiry)
    requires WellFormed(db) && g in db.groups && r in db.roles
    ensures WellFormed(PutLink(db, g, r, e))
  {
    hide RolesOk;
  }

  lemma DropLinkKeeps(db: Db, g: GroupId, r: RoleId)
    requires WellFormed(db)
    ensures WellFormed(DropLink(db, g, r))
  {
    hide RolesOk;
  }

  lemma PutGroupKeeps(db: Db, g: GroupId, name: string)
    requires WellFormed(db)
    ensures WellFormed(PutGroup(db, g, name))
  {
    hide RolesOk;
  }

  lemma DropGroupKeeps(db: Db, g: GroupId)
    requires WellFormed(db)
    ensures WellFormed(DropGroup(db, g))
  {
    hide RolesOk;
  }

  lemma PutGroupVmKeeps(db: Db, g: GroupId, v: VmId, grant: VmGrant)
    requires WellFormed(db) && g in db.groups
    ensures WellFormed(PutGroupVm(db, g, v, grant))
  {
    hide RolesOk;
  }

  lemma DropGroupVmKeeps(db: Db, g: GroupId, v: VmId)
    requires WellFormed(db)
    ensures WellFormed(DropGroupVm(db, g, v))
  {
    hide RolesOk;
  }

  lemma InsertUserKeeps(db: Db, newId: UserId, username: string, password: string, kind: Kind)
    requires WellFormed(db)
    ensures WellFormed(InsertUser(db, newId, username, password, kind))
  {
    assert RoleIdOf(kind) in db.roles;
  }

  lemma AdmitKeeps(db: Db, request: RequestId, newId: UserId, kind: Kind)
    requires WellFormed(db)
    ensures WellFormed(DropPending(db, request))
    ensures WellFormed(Admit(db, request, newId, kind))
  {
    hide InsertUser;
    if request in db.pending {
      InsertUserKeeps(DropPending(db, request), newId, db.pending[request].username, db.pending[request].password, kind);
    }
  }

  lemma SetActiveKeeps(db: Db, u: UserId, active: bool)
    requires WellFormed(db)
    ensures WellFormed(SetActive(db, u, active)) && SetActive(db, u, active).users.Keys == db.users.Keys
  {
    hide RolesOk;
    assert SetActive(db, u, active).users.Keys == db.users.Keys;
  }

  lemma SetPasswordKeeps(db: Db, u: UserId, password: Option<string>)
    requires WellFormed(db)
    ensures WellFormed(SetPassword(db, u, password))
  {
    hide RolesOk;
    assert SetPassword(db, u, password).users.Keys == db.users.Keys;
  }

  lemma ReplaceRolesKeeps(db: Db, u: UserId, kind: Kind)
    requires WellFormed(db) && u in db.users
    ensures WellFormed(ReplaceRoles(db, u, kind))
  {
    assert RoleIdOf(kind) in db.roles;
  }

  lemma DropUserKeeps(db: Db, u: UserId)
    requires WellFormed(db)
    ensures WellFormed(DropUser(db, u))
  {
  }

  lemma EditedRoleOk(db: Db, actor: UserId, r: RoleId, name: Option<RoleName>, perms: Option<set<Permission>>)
    requires WellFormed(db) && EditRoleRefusal(db, actor, r, name, perms).None?
    ensures r in db.roles && !db.roles[r].isSystem && RoleOk(r, Edited(db.roles[r], name, perms))
  {
    hide MayUse, MayConfer, RoleNameTaken;
    assert RoleOk(r, db.roles[r]);
    if name.Some? && name.value.BuiltIn? { BuiltInsAreTaken(db, name.value); }
  }

  lemma PatchRoleKeeps(db: Db, actor: UserId, r: RoleId, name: Option<RoleName>, perms: Option<set<Permission>>)
    requires WellFormed(db) && EditRoleRefusal(db, actor, r, name, perms).None?
    ensures WellFormed(PatchRole(db, r, name, perms))
  {
    hide WellFormed, PutRole, EditRoleRefusal, RoleOk;
    EditedRoleOk(db, actor, r, name, perms);
    PutRoleKeeps(db, r, Edited(db.roles[r], name, perms));
  }

  // -- and every request ---------------------------------------------------------

  lemma RoleRequestsKeepWellFormed(db: Db, actor: UserId, req: Request)
    requires WellFormed(db)
    requires req.ReqCreateRole? || req.ReqEditRole? || req.ReqDeleteRole?
    ensures WellFormed(Serve(db, actor, req).db)
  {
    hide WellFormed, MayUse, MayConfer, RoleNameTaken, PutRole, PatchRole, DropRole;
    match req
    case ReqCreateRole(newId, name, perms) =>
      if name.BuiltIn? { BuiltInsAreTaken(db, name); }
      if CreateRoleRefusal(db, actor, newId, name, perms).None? { PutRoleKeeps(db, newId, Role(name, false, perms)); }
    case ReqEditRole(r, name, perms) =>
      if EditRoleRefusal(db, actor, r, name, perms).None? { PatchRoleKeeps(db, actor, r, name, perms); }
    case ReqDeleteRole(r) =>
      if DeleteRoleRefusal(db, actor, r).None? { DropRoleKeeps(db, r); }
  }

  lemma GrantRequestsKeepWellFormed(db: Db, actor: UserId, req: Request)
    requires WellFormed(db)
    requires req.ReqAssignRole? || req.ReqRemoveRole? || req.ReqGrantPermission? || req.ReqRevokePermission?
    ensures WellFormed(Serve(db, actor, req).db)
  {
    hide WellFormed, MayUse, MayConfer, CanAdminister, OtherActiveAdmin, PutUserRole, DropUserRole, PutUserPerm, DropUserPerm;
    match req
    case ReqAssignRole(u, r, e) => if AssignRoleRefusal(db, actor, u, r, e).None? { PutUserRoleKeeps(db, u, r, e); }
    case ReqRemoveRole(u, r) => DropUserRoleKeeps(db, u, r);
    case ReqGrantPermission(u, p, e) => if GrantPermissionRefusal(db, actor, u, p, e).None? { PutUserPermKeeps(db, u, p, e); }
    case ReqRevokePermission(u, p) => DropUserPermKeeps(db, u, p);
  }

  lemma MemberRequestsKeepWellFormed(db: Db, actor: UserId, req: Request)
    requires WellFormed(db)
    requires req.ReqAddMember? || req.ReqRemoveMember? || req.ReqLinkRole? || req.ReqUnlinkRole?
    ensures WellFormed(Serve(db, actor, req).db)
  {
    hide WellFormed, MayUse, MayConfer, CanAdminister, PutMember, DropMember, PutLink, DropLink;
    match req
    case ReqAddMember(g, u, e) => if AddMemberRefusal(db, actor, g, u, e).None? { PutMemberKeeps(db, g, u, e); }
    case ReqRemoveMember(g, u) => DropMemberKeeps(db, g, u);
    case ReqLinkRole(g, r, e) => if LinkRoleRefusal(db, actor, g, r, e).None? { PutLinkKeeps(db, g, r, e); }
    case ReqUnlinkRole(g, r) => DropLinkKeeps(db, g, r);
  }

  lemma GroupRequestsKeepWellFormed(db: Db, actor: UserId, req: Request)
    requires WellFormed(db)
    requires req.ReqCreateGroup? || req.ReqRenameGroup? || req.ReqDeleteGroup? || req.ReqGrantVm? || req.ReqRevokeVm?
    ensures WellFormed(Serve(db, actor, req).db)
  {
    hide WellFormed, MayUse, HasAccessOrOwns, PutGroup, DropGroup, PutGroupVm, DropGroupVm;
    match req
    case ReqCreateGroup(g, name) => PutGroupKeeps(db, g, name);
    case ReqRenameGroup(g, name) => if name.Some? { PutGroupKeeps(db, g, name.value); }
    case ReqDeleteGroup(g) => DropGroupKeeps(db, g);
    case ReqGrantVm(g, v, ps, e) => if GrantVmRefusal(db, actor, g, v, e).None? { PutGroupVmKeeps(db, g, v, VmGrant(ps, e)); }
    case ReqRevokeVm(g, v) => DropGroupVmKeeps(db, g, v);
  }

  lemma UpdateActiveKeepsWellFormed(db: Db, actor: UserId, target: UserId, active: Option<bool>)
    requires WellFormed(db)
    ensures var out := UpdateActive(db, actor, target, active);
            WellFormed(out.db) && out.db.users.Keys == db.users.Keys
  {
    hide WellFormed, SetActive, DeactivationRefusal;
    if active.Some? { SetActiveKeeps(db, target, active.value); }
  }

  lemma UpdateUserKeepsWellFormed(db: Db, actor: UserId, target: UserId,
                                  active: Option<bool>, kind: Option<Kind>, password: Option<string>)
    requires WellFormed(db)
    ensures WellFormed(UpdateUser(db, actor, target, active, kind, password).db)
  {
    hide WellFormed, MayUse, CanAdminister, UpdateActive, KindRefusal, ReplaceRoles, SetPassword;
    UpdateActiveKeepsWellFormed(db, actor, target, active);
    var first := UpdateActive(db, actor, target, active).db;
    if UpdateUserRefusal(db, actor, target, kind).None? {
      if kind.Some? { ReplaceRolesKeeps(first, target, kind.value); }
      SetPasswordKeeps(UpdateKind(first, actor, target, kind).db, target, password);
    }
  }

  lemma AccountRequestsKeepWellFormed(db: Db, actor: UserId, req: Request)
    requires WellFormed(db)
    requires req.ReqCreateUser? || req.ReqUpdateUser? || req.ReqDeleteUser? || req.ReqApprove?
    ensures WellFormed(Serve(db, actor, req).db)
  {
    hide WellFormed, CreateUserRefusal, UpdateUser, DeleteUserRefusal, ApproveRefusal, InsertUser, DropUser, Admit, DropPending, UsernameTaken;
    match req
    case ReqCreateUser(newId, username, secret, kind) => InsertUserKeeps(db, newId, username, secret, kind);
    case ReqUpdateUser(u, active, kind, password) => UpdateUserKeepsWellFormed(db, actor, u, active, kind, password);
    case ReqDeleteUser(u) => DropUserKeeps(db, u);
    case ReqApprove(q, newId, kind) => AdmitKeeps(db, q, newId, kind);
  }

  lemma RequestKeepsWellFormed(db: Db, actor: UserId, req: Request)
    requires WellFormed(db)
    ensures WellFormed(Serve(db, actor, req).db)
  {
    hide WellFormed, Serve;
    if req.ReqCreateRole? || req.ReqEditRole? || req.ReqDeleteRole? {
      RoleRequestsKeepWellFormed(db, actor, req);
    } else if req.ReqAssignRole? || req.ReqRemoveRole? || req.ReqGrantPermission? || req.ReqRevokePermission? {
      GrantRequestsKeepWellFormed(db, actor, req);
    } else if req.ReqAddMember? || req.ReqRemoveMember? || req.ReqLinkRole? || req.ReqUnlinkRole? {
      MemberRequestsKeepWellFormed(db, actor, req);
    } else if req.ReqCreateGroup? || req.ReqRenameGroup? || req.ReqDeleteGroup? || req.ReqGrantVm? || req.ReqRevokeVm? {
      GroupRequestsKeepWellFormed(db, actor, req);
    } else {
      AccountRequestsKeepWellFormed(db, actor, req);
    }
  }

  lemma SweepKeepsWellFormed(db: Db, stuck: set<(UserId, VmId)>)
    requires WellFormed(db)
    ensures WellFormed(Sweep(db, stuck))
  {
  }

  lemma AskKeepsWellFormed(db: Db, request: RequestId, username: string, password: string)
    requires WellFormed(db)
    ensures WellFormed(Ask(db, request, username, password))
  {
    hide UsernameTaken, Queued;
  }

  lemma EventKeepsWellFormed(db: Db, e: Event)
    requires WellFormed(db)
    ensures WellFormed(Next(db, e))
  {
    match e {
      case Call(actor, req) => { hide WellFormed, Serve; RequestKeepsWellFormed(db, actor, req); }
      case SignUp(newId, username, password) => { hide WellFormed, InsertUser, UsernameTaken; InsertUserKeeps(db, newId, username, password, GUEST); }
      case AskToJoin(request, username, password) => { hide WellFormed, Ask; AskKeepsWellFormed(db, request, username, password); }
      case Swept(stuck) => { hide WellFormed, Sweep; SweepKeepsWellFormed(db, stuck); }
      case Tick(_) => { hide RolesOk; }
    }
  }
}
