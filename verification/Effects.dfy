/**
 The meaning of every request in terms of permission sources alone: which
 (user, permission, source) triples are live afterwards, given the ones before.
 This is the reference the table updates of `Iam` are held against.
 */
module Effects {
  import opened Common
  import opened Iam
  import opened Tables

  predicate UsesRole(src: Source, r: RoleId) {
    !src.ByGrant? && src.role == r
  }

  predicate UsesGroup(src: Source, g: GroupId) {
    src.ByGroup? && src.group == g
  }

  /** The rows that tie a user to the role a source names are live, whatever the role carries. */
  predicate Tied(db: Db, u: UserId, src: Source) {
    match src
    case ByRole(r) => HasRole(db, u, r)
    case ByGrant => false
    case ByGroup(g, r) => IsMember(db, g, u) && IsLinked(db, g, r)
  }

  /** Whether a source is live after `req` was accepted in `db`. */
  predicate SourceAfter(db: Db, req: Request, u: UserId, p: Permission, src: Source) {
    match req
    case ReqEditRole(r, _, Some(perms)) =>
      if UsesRole(src, r) then Tied(db, u, src) && p in perms else LiveSource(db, u, p, src)
    case ReqDeleteRole(r) => LiveSource(db, u, p, src) && !UsesRole(src, r)
    case ReqAssignRole(t, r, _) =>
      LiveSource(db, u, p, src) || (u == t && src == ByRole(r) && r in db.roles && p in RoleConfers(db.roles[r]))
    case ReqRemoveRole(t, r) => LiveSource(db, u, p, src) && !(u == t && src == ByRole(r))
    case ReqGrantPermission(t, q, _) => LiveSource(db, u, p, src) || (u == t && p == q && src == ByGrant)
    case ReqRevokePermission(t, q) => LiveSource(db, u, p, src) && !(u == t && p == q && src == ByGrant)
    case ReqDeleteGroup(g) => LiveSource(db, u, p, src) && !UsesGroup(src, g)
    case ReqAddMember(g, t, _) =>
      || LiveSource(db, u, p, src)
      || (u == t && UsesGroup(src, g) && IsLinked(db, g, src.role) && src.role in db.roles && p in db.roles[src.role].stored)
    case ReqRemoveMember(g, t) => LiveSource(db, u, p, src) && !(u == t && UsesGroup(src, g))
    case ReqLinkRole(g, r, _) =>
      LiveSource(db, u, p, src) || (src == ByGroup(g, r) && IsMember(db, g, u) && r in db.roles && p in db.roles[r].stored)
    case ReqUnlinkRole(g, r) => LiveSource(db, u, p, src) && src != ByGroup(g, r)
    case ReqCreateUser(newId, _, _, kind) =>
      LiveSource(db, u, p, src) || (u == newId && src == ByRole(RoleIdOf(kind)) && p in BuiltInPermissions(kind))
    case ReqUpdateUser(t, _, Some(kind), _) =>
      if u == t && src.ByRole? then src == ByRole(RoleIdOf(kind)) && p in BuiltInPermissions(kind)
      else LiveSource(db, u, p, src)
    case ReqDeleteUser(t) => LiveSource(db, u, p, src) && u != t
    case ReqApprove(_, newId, kind) =>
      LiveSource(db, u, p, src) || (u == newId && src == ByRole(RoleIdOf(kind)) && p in BuiltInPermissions(kind))
    case _ => LiveSource(db, u, p, src)
  }

  /** A refused request changes no source. */
  predicate Expected(db: Db, req: Request, reply: Reply, u: UserId, p: Permission, src: Source) {
    if reply.Done? then SourceAfter(db, req, u, p, src) else LiveSource(db, u, p, src)
  }

  /** The hardcoded set and the stored rows agree on what a role confers and what it resolves to. */
  lemma RolesResolveAsConferred(db: Db, r: RoleId)
    requires WellFormed(db) && r in db.roles
    ensures RoleResolves(db.roles[r]) == RoleConfers(db.roles[r])
  {
    assert RoleOk(r, db.roles[r]);
  }

  lemma BuiltInRoleIs(db: Db, kind: Kind)
    requires WellFormed(db)
    ensures BuiltInRole(db, kind) == BuiltInPermissions(kind)
    ensures RoleIdOf(kind) in db.roles && RoleResolves(db.roles[RoleIdOf(kind)]) == BuiltInPermissions(kind)
  {
    assert RoleIdOf(kind) in db.roles && db.roles[RoleIdOf(kind)].name == BuiltIn(kind);
    assert RoleOk(RoleIdOf(kind), db.roles[RoleIdOf(kind)]);
  }

  /** The tables permissions flow through. */
  predicate SameGrants(a: Db, b: Db) {
    && a.now == b.now && a.roles == b.roles && a.userRoles == b.userRoles && a.userPerms == b.userPerms
    && a.members == b.members && a.groupRoles == b.groupRoles
  }

  lemma SameGrantsSameSources(a: Db, b: Db, u: UserId, p: Permission, src: Source)
    requires SameGrants(a, b)
    ensures LiveSource(a, u, p, src) <==> LiveSource(b, u, p, src)
  {
    hide RoleResolves;
  }

  lemma CreateRoleEffect(db: Db, r: RoleId, name: RoleName, perms: set<Permission>, u: UserId, p: Permission, src: Source)
    requires WellFormed(db) && r !in db.roles
    ensures LiveSource(PutRole(db, r, Role(name, false, perms)), u, p, src) <==> SourceAfter(db, ReqCreateRole(r, name, perms), u, p, src)
  {
    hide RolesOk;
  }

  lemma EditRoleEffect(db: Db, r: RoleId, name: Option<RoleName>, perms: Option<set<Permission>>, u: UserId, p: Permission, src: Source)
    requires WellFormed(db)
    requires r in db.roles && RoleOk(r, Edited(db.roles[r], name, perms)) && !db.roles[r].isSystem
    ensures LiveSource(PatchRole(db, r, name, perms), u, p, src) <==> SourceAfter(db, ReqEditRole(r, name, perms), u, p, src)
  {
    assert RoleOk(r, db.roles[r]);
  }

  lemma DeleteRoleEffect(db: Db, r: RoleId, u: UserId, p: Permission, src: Source)
    requires WellFormed(db)
    ensures LiveSource(DropRole(db, r), u, p, src) <==> SourceAfter(db, ReqDeleteRole(r), u, p, src)
  {
    hide WellFormed, RoleResolves, RoleConfers;
  }

  lemma AssignRoleEffect(db: Db, t: UserId, r: RoleId, e: Expiry, u: UserId, p: Permission, src: Source)
    requires WellFormed(db) && r in db.roles && ExpiryOk(db, e)
    ensures LiveSource(PutUserRole(db, t, r, e), u, p, src) <==> SourceAfter(db, ReqAssignRole(t, r, e), u, p, src)
  {
    RolesResolveAsConferred(db, r);
    hide WellFormed, RoleResolves, RoleConfers;
  }

  lemma RemoveRoleEffect(db: Db, t: UserId, r: RoleId, u: UserId, p: Permission, src: Source)
    requires WellFormed(db)
    ensures LiveSource(DropUserRole(db, t, r), u, p, src) <==> SourceAfter(db, ReqRemoveRole(t, r), u, p, src)
  {
    hide WellFormed, RoleResolves, RoleConfers;
  }

  lemma GrantPermissionEffect(db: Db, t: UserId, q: Permission, e: Expiry, u: UserId, p: Permission, src: Source)
    requires WellFormed(db) && ExpiryOk(db, e)
    ensures LiveSource(PutUserPerm(db, t, q, e), u, p, src) <==> SourceAfter(db, ReqGrantPermission(t, q, e), u, p, src)
  {
    hide WellFormed, RoleResolves, RoleConfers;
  }

  lemma RevokePermissionEffect(db: Db, t: UserId, q: Permission, u: UserId, p: Permission, src: Source)
    requires WellFormed(db)
    ensures LiveSource(DropUserPerm(db, t, q), u, p, src) <==> SourceAfter(db, ReqRevokePermission(t, q), u, p, src)
  {
    hide WellFormed, RoleResolves, RoleConfers;
  }

  lemma DeleteGroupEffect(db: Db, g: GroupId, u: UserId, p: Permission, src: Source)
    requires WellFormed(db)
    ensures LiveSource(DropGroup(db, g), u, p, src) <==> SourceAfter(db, ReqDeleteGroup(g), u, p, src)
  {
    hide WellFormed, RoleResolves, RoleConfers;
  }

  lemma AddMemberEffect(db: Db, g: GroupId, t: UserId, e: Expiry, u: UserId, p: Permission, src: Source)
    requires WellFormed(db) && ExpiryOk(db, e)
    ensures LiveSource(PutMember(db, g, t, e), u, p, src) <==> SourceAfter(db, ReqAddMember(g, t, e), u, p, src)
  {
    hide WellFormed, RoleResolves, RoleConfers;
  }

  lemma RemoveMemberEffect(db: Db, g: GroupId, t: UserId, u: UserId, p: Permission, src: Source)
    requires WellFormed(db)
    ensures LiveSource(DropMember(db, g, t), u, p, src) <==> SourceAfter(db, ReqRemoveMember(g, t), u, p, src)
  {
    hide WellFormed, RoleResolves, RoleConfers;
  }

  lemma LinkRoleEffect(db: Db, g: GroupId, r: RoleId, e: Expiry, u: UserId, p: Permission, src: Source)
    requires WellFormed(db) && ExpiryOk(db, e)
    ensures LiveSource(PutLink(db, g, r, e), u, p, src) <==> SourceAfter(db, ReqLinkRole(g, r, e), u, p, src)
  {
    hide WellFormed, RoleResolves, RoleConfers;
  }

  lemma UnlinkRoleEffect(db: Db, g: GroupId, r: RoleId, u: UserId, p: Permission, src: Source)
    requires WellFormed(db)
    ensures LiveSource(DropLink(db, g, r), u, p, src) <==> SourceAfter(db, ReqUnlinkRole(g, r), u, p, src)
  {
    hide WellFormed, RoleResolves, RoleConfers;
  }

  lemma DeleteUserEffect(db: Db, t: UserId, u: UserId, p: Permission, src: Source)
    requires WellFormed(db)
    ensures LiveSource(DropUser(db, t), u, p, src) <==> SourceAfter(db, ReqDeleteUser(t), u, p, src)
  {
    hide WellFormed, RoleResolves, RoleConfers;
  }

  /** A new account holds its one role row and nothing else. */
  lemma InsertEffect(db: Db, newId: UserId, username: string, password: string, kind: Kind, u: UserId, p: Permission, src: Source)
    requires WellFormed(db) && newId !in db.users
    ensures LiveSource(InsertUser(db, newId, username, password, kind), u, p, src) <==>
            LiveSource(db, u, p, src) || (u == newId && src == ByRole(RoleIdOf(kind)) && p in BuiltInPermissions(kind))
  {
    BuiltInRoleIs(db, kind);
    hide RoleResolves, BuiltInPermissions, RolesOk;
  }

  lemma AdmitEffect(db: Db, q: RequestId, newId: UserId, kind: Kind, u: UserId, p: Permission, src: Source)
    requires WellFormed(db) && q in db.pending && newId !in db.users
    ensures LiveSource(Admit(db, q, newId, kind), u, p, src) <==> SourceAfter(db, ReqApprove(q, newId, kind), u, p, src)
  {
    hide WellFormed, LiveSource, InsertUser, BuiltInPermissions;
    AdmitKeeps(db, q, newId, kind);
    InsertEffect(DropPending(db, q), newId, db.pending[q].username, db.pending[q].password, kind, u, p, src);
    SameGrantsSameSources(db, DropPending(db, q), u, p, src);
  }

  lemma ReplaceRolesEffect(db: Db, t: UserId, kind: Kind, u: UserId, p: Permission, src: Source)
    requires WellFormed(db)
    ensures LiveSource(ReplaceRoles(db, t, kind), u, p, src) <==>
            if u == t && src.ByRole? then src == ByRole(RoleIdOf(kind)) && p in BuiltInPermissions(kind)
            else LiveSource(db, u, p, src)
  {
    BuiltInRoleIs(db, kind);
    hide WellFormed, RoleResolves, BuiltInPermissions;
  }

  lemma UpdateActiveEffect(db: Db, actor: UserId, t: UserId, active: Option<bool>, u: UserId, p: Permission, src: Source)
    ensures LiveSource(UpdateActive(db, actor, t, active).db, u, p, src) <==> LiveSource(db, u, p, src)
  {
    hide DeactivationRefusal, LiveSource;
    if active.Some? { SameGrantsSameSources(db, SetActive(db, t, active.value), u, p, src); }
  }

  lemma SetPasswordSameGrants(db: Db, t: UserId, password: Option<string>)
    ensures SameGrants(db, SetPassword(db, t, password))
  {
  }

  /** A refused update may still have changed `active`, which is not a source. */
  lemma UpdateUserEffect(db: Db, actor: UserId, t: UserId, active: Option<bool>, kind: Option<Kind>, password: Option<string>,
                         u: UserId, p: Permission, src: Source)
    requires WellFormed(db)
    ensures var out := UpdateUser(db, actor, t, active, kind, password);
            LiveSource(out.db, u, p, src) <==> Expected(db, ReqUpdateUser(t, active, kind, password), out.reply, u, p, src)
  {
    hide UpdateUserRefusal, UpdateActive, KindRefusal, ReplaceRoles, SetPassword, WellFormed, LiveSource;
    var first := UpdateActive(db, actor, t, active).db;
    UpdateActiveEffect(db, actor, t, active, u, p, src);
    UpdateActiveKeepsWellFormed(db, actor, t, active);
    if kind.Some? { ReplaceRolesEffect(first, t, kind.value, u, p, src); }
    var second := UpdateKind(first, actor, t, kind).db;
    SetPasswordSameGrants(second, t, password);
    SameGrantsSameSources(second, SetPassword(second, t, password), u, p, src);
  }

  lemma RoleRequestEffect(db: Db, actor: UserId, req: Request, u: UserId, p: Permission, src: Source)
    requires WellFormed(db) && (req.ReqCreateRole? || req.ReqEditRole? || req.ReqDeleteRole?)
    ensures var out := Serve(db, actor, req);
            LiveSource(out.db, u, p, src) <==> Expected(db, req, out.reply, u, p, src)
  {
    hide WellFormed, LiveSource, SourceAfter, MayUse, MayConfer, RoleNameTaken, PutRole, PatchRole, DropRole, EditRoleRefusal, RoleOk;
    match req
    case ReqCreateRole(newId, name, perms) =>
      if CreateRoleRefusal(db, actor, newId, name, perms).None? { CreateRoleEffect(db, newId, name, perms, u, p, src); }
    case ReqEditRole(r, name, perms) =>
      if EditRoleRefusal(db, actor, r, name, perms).None? {
        EditedRoleOk(db, actor, r, name, perms);
        EditRoleEffect(db, r, name, perms, u, p, src);
      }
    case ReqDeleteRole(r) => DeleteRoleEffect(db, r, u, p, src);
  }

  lemma GrantRequestEffect(db: Db, actor: UserId, req: Request, u: UserId, p: Permission, src: Source)
    requires WellFormed(db)
    requires req.ReqAssignRole? || req.ReqRemoveRole? || req.ReqGrantPermission? || req.ReqRevokePermission?
    ensures var out := Serve(db, actor, req);
            LiveSource(out.db, u, p, src) <==> Expected(db, req, out.reply, u, p, src)
  {
    hide WellFormed, LiveSource, SourceAfter, MayUse, MayConfer, CanAdminister, ExpiryOk, RemoveRoleRefusal,
      PutUserRole, DropUserRole, PutUserPerm, DropUserPerm;
    match req
    case ReqAssignRole(t, r, e) =>
      if AssignRoleRefusal(db, actor, t, r, e).None? { AssignRoleEffect(db, t, r, e, u, p, src); }
    case ReqRemoveRole(t, r) => RemoveRoleEffect(db, t, r, u, p, src);
    case ReqGrantPermission(t, q, e) =>
      if GrantPermissionRefusal(db, actor, t, q, e).None? { GrantPermissionEffect(db, t, q, e, u, p, src); }
    case ReqRevokePermission(t, q) => RevokePermissionEffect(db, t, q, u, p, src);
  }

  lemma GroupRequestEffect(db: Db, actor: UserId, req: Request, u: UserId, p: Permission, src: Source)
    requires WellFormed(db)
    requires req.ReqAddMember? || req.ReqRemoveMember? || req.ReqLinkRole? || req.ReqUnlinkRole? || req.ReqDeleteGroup?
    ensures var out := Serve(db, actor, req);
            LiveSource(out.db, u, p, src) <==> Expected(db, req, out.reply, u, p, src)
  {
    hide WellFormed, LiveSource, SourceAfter, MayUse, MayConfer, CanAdminister, ExpiryOk,
      PutMember, DropMember, PutLink, DropLink, DropGroup;
    match req
    case ReqAddMember(g, t, e) =>
      if AddMemberRefusal(db, actor, g, t, e).None? { AddMemberEffect(db, g, t, e, u, p, src); }
    case ReqRemoveMember(g, t) => RemoveMemberEffect(db, g, t, u, p, src);
    case ReqLinkRole(g, r, e) =>
      if LinkRoleRefusal(db, actor, g, r, e).None? { LinkRoleEffect(db, g, r, e, u, p, src); }
    case ReqUnlinkRole(g, r) => UnlinkRoleEffect(db, g, r, u, p, src);
    case ReqDeleteGroup(g) => DeleteGroupEffect(db, g, u, p, src);
  }

  /** Groups by themselves, and their VMs, carry no permission. */
  lemma InertRequestEffect(db: Db, actor: UserId, req: Request, u: UserId, p: Permission, src: Source)
    requires req.ReqCreateGroup? || req.ReqRenameGroup? || req.ReqGrantVm? || req.ReqRevokeVm?
    ensures var out := Serve(db, actor, req);
            LiveSource(out.db, u, p, src) <==> LiveSource(db, u, p, src)
  {
    hide LiveSource, CreateGroupRefusal, RenameGroupRefusal, GrantVmRefusal, RevokeVmRefusal;
    SameGrantsSameSources(db, Serve(db, actor, req).db, u, p, src);
  }

  lemma ApproveEffect(db: Db, actor: UserId, q: RequestId, newId: UserId, kind: Kind, u: UserId, p: Permission, src: Source)
    requires WellFormed(db)
    ensures var out := Approve(db, actor, q, newId, kind);
            LiveSource(out.db, u, p, src) <==> Expected(db, ReqApprove(q, newId, kind), out.reply, u, p, src)
  {
    hide WellFormed, LiveSource, MayUse, MayConfer, UsernameTaken, Admit, BuiltInPermissions, SourceAfter;
    if q in db.pending && newId !in db.users { AdmitEffect(db, q, newId, kind, u, p, src); }
    SameGrantsSameSources(db, DropPending(db, q), u, p, src);
  }

  lemma AccountRequestEffect(db: Db, actor: UserId, req: Request, u: UserId, p: Permission, src: Source)
    requires WellFormed(db)
    requires req.ReqCreateUser? || req.ReqUpdateUser? || req.ReqDeleteUser? || req.ReqApprove?
    ensures var out := Serve(db, actor, req);
            LiveSource(out.db, u, p, src) <==> Expected(db, req, out.reply, u, p, src)
  {
    hide WellFormed, LiveSource, MayUse, MayConfer, UsernameTaken, DeleteUserRefusal, UpdateUser, Approve,
      InsertUser, DropUser, BuiltInPermissions;
    match req
    case ReqCreateUser(newId, name, secret, kind) =>
      if CreateUserRefusal(db, actor, newId, name, kind).None? { InsertEffect(db, newId, name, secret, kind, u, p, src); }
    case ReqUpdateUser(t, a, k, s) => UpdateUserEffect(db, actor, t, a, k, s, u, p, src);
    case ReqDeleteUser(t) => DeleteUserEffect(db, t, u, p, src);
    case ReqApprove(q, newId, kind) => ApproveEffect(db, actor, q, newId, kind, u, p, src);
  }

  /** Every accepted request changes exactly the sources `SourceAfter` says; a refused one changes none. */
  lemma RequestEffect(db: Db, actor: UserId, req: Request, u: UserId, p: Permission, src: Source)
    requires WellFormed(db)
    ensures var out := Serve(db, actor, req);
            LiveSource(out.db, u, p, src) <==> Expected(db, req, out.reply, u, p, src)
  {
    if req.ReqCreateGroup? || req.ReqRenameGroup? || req.ReqGrantVm? || req.ReqRevokeVm? {
      hide LiveSource, WellFormed, Serve;
      InertRequestEffect(db, actor, req, u, p, src);
    } else {
      hide LiveSource, WellFormed, Serve, Expected;
      if req.ReqCreateRole? || req.ReqEditRole? || req.ReqDeleteRole? {
        RoleRequestEffect(db, actor, req, u, p, src);
      } else if req.ReqAssignRole? || req.ReqRemoveRole? || req.ReqGrantPermission? || req.ReqRevokePermission? {
        GrantRequestEffect(db, actor, req, u, p, src);
      } else if req.ReqCreateUser? || req.ReqUpdateUser? || req.ReqDeleteUser? || req.ReqApprove? {
        AccountRequestEffect(db, actor, req, u, p, src);
      } else {
        GroupRequestEffect(db, actor, req, u, p, src);
      }
    }
  }
}
