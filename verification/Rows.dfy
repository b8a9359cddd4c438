/**
 What a request leaves in each table, row by row: for every table and every key, which requests
 write or remove its row and with what. A second account of the endpoints, by table instead of by
 endpoint, and of what a refused request leaves behind.
 */
module Rows {
  import opened Common
  import opened Iam
  import opened Answers

  function Get<K, V>(rows: map<K, V>, k: K): Option<V> {
    if k in rows then Some(rows[k]) else None
  }

  // -- What an accepted request leaves at a key ---------------------------------------------

  function RoleRow(db: Db, req: Request, r: RoleId): Option<Role> {
    match req
    case ReqCreateRole(x, name, perms) => if x == r then Some(Role(name, false, perms)) else Get(db.roles, r)
    case ReqDeleteRole(x) => if x == r then None else Get(db.roles, r)
    case ReqEditRole(x, name, perms) =>
      if x != r || r !in db.roles then Get(db.roles, r)
      else
        var role := db.roles[r];
        Some(Role(match name case Some(n) => n case None => role.name, role.isSystem,
                  match perms case Some(ps) => ps case None => role.stored))
    case _ => Get(db.roles, r)
  }

  function UserRoleRow(db: Db, req: Request, u: UserId, r: RoleId): Option<Expiry> {
    var was := Get(db.userRoles, (u, r));
    match req
    case ReqAssignRole(t, x, e) => if t == u && x == r then Some(e) else was
    case ReqRemoveRole(t, x) => if t == u && x == r then None else was
    case ReqDeleteRole(x) => if x == r then None else was
    case ReqCreateUser(t, _, _, kind) => if t == u && r == RoleIdOf(kind) then Some(None) else was
    case ReqApprove(_, t, kind) => if t == u && r == RoleIdOf(kind) then Some(None) else was
    case ReqUpdateUser(t, _, Some(kind), _) => if t != u then was else if r == RoleIdOf(kind) then Some(None) else None
    case ReqDeleteUser(t) => if t == u then None else was
    case _ => was
  }

  function UserPermRow(db: Db, req: Request, u: UserId, p: Permission): Option<Expiry> {
    var was := Get(db.userPerms, (u, p));
    match req
    case ReqGrantPermission(t, q, e) => if t == u && q == p then Some(e) else was
    case ReqRevokePermission(t, q) => if t == u && q == p then None else was
    case ReqDeleteUser(t) => if t == u then None else was
    case _ => was
  }

  function GroupRow(db: Db, req: Request, g: GroupId): Option<string> {
    match req
    case ReqCreateGroup(x, name) => if x == g then Some(name) else Get(db.groups, g)
    case ReqRenameGroup(x, Some(name)) => if x == g then Some(name) else Get(db.groups, g)
    case ReqDeleteGroup(x) => if x == g then None else Get(db.groups, g)
    case _ => Get(db.groups, g)
  }

  function MemberRow(db: Db, req: Request, g: GroupId, u: UserId): Option<Expiry> {
    var was := Get(db.members, (g, u));
    match req
    case ReqAddMember(x, t, e) => if x == g && t == u then Some(e) else was
    case ReqRemoveMember(x, t) => if x == g && t == u then None else was
    case ReqDeleteGroup(x) => if x == g then None else was
    case ReqDeleteUser(t) => if t == u then None else was
    case _ => was
  }

  function LinkRow(db: Db, req: Request, g: GroupId, r: RoleId): Option<Expiry> {
    var was := Get(db.groupRoles, (g, r));
    match req
    case ReqLinkRole(x, y, e) => if x == g && y == r then Some(e) else was
    case ReqUnlinkRole(x, y) => if x == g && y == r then None else was
    case ReqDeleteGroup(x) => if x == g then None else was
    case ReqDeleteRole(y) => if y == r then None else was
    case _ => was
  }

  function GroupVmRow(db: Db, req: Request, g: GroupId, v: VmId): Option<VmGrant> {
    var was := Get(db.groupVms, (g, v));
    match req
    case ReqGrantVm(x, w, protocols, e) => if x == g && w == v then Some(VmGrant(protocols, e)) else was
    case ReqRevokeVm(x, w) => if x == g && w == v then None else was
    case ReqDeleteGroup(x) => if x == g then None else was
    case _ => was
  }

  function VmAccessRow(db: Db, req: Request, u: UserId, v: VmId): Option<VmGrant> {
    match req
    case ReqDeleteUser(t) => if t == u then None else Get(db.vmAccess, (u, v))
    case _ => Get(db.vmAccess, (u, v))
  }

  function AccountRow(db: Db, req: Request, u: UserId): Option<Account> {
    var was := Get(db.users, u);
    match req
    case ReqCreateUser(t, name, secret, _) => if t == u then Some(Account(name, true, false, secret)) else was
    case ReqApprove(q, t, _) =>
      if t == u && q in db.pending then Some(Account(db.pending[q].username, true, false, db.pending[q].password)) else was
    case ReqUpdateUser(t, active, _, password) =>
      if t != u || u !in db.users then was
      else
        var account := db.users[u];
        Some(Account(account.username, match active case Some(a) => a case None => account.active, account.initialAdmin,
                     match password case Some(p) => p case None => account.password))
    case ReqDeleteUser(t) => if t == u then None else was
    case _ => was
  }

  function PendingRow(db: Db, req: Request, q: RequestId): Option<Registration> {
    match req
    case ReqApprove(x, _, _) => if x == q then None else Get(db.pending, q)
    case _ => Get(db.pending, q)
  }

  /** At every key every table of `after` has the row the request leaves; the clock and the VMs are untouched. */
  predicate Leaves(db: Db, req: Request, after: Db, u: UserId, r: RoleId, p: Permission, g: GroupId, v: VmId, q: RequestId) {
    && Get(after.roles, r) == RoleRow(db, req, r)
    && Get(after.userRoles, (u, r)) == UserRoleRow(db, req, u, r)
    && Get(after.userPerms, (u, p)) == UserPermRow(db, req, u, p)
    && Get(after.groups, g) == GroupRow(db, req, g)
    && Get(after.members, (g, u)) == MemberRow(db, req, g, u)
    && Get(after.groupRoles, (g, r)) == LinkRow(db, req, g, r)
    && Get(after.groupVms, (g, v)) == GroupVmRow(db, req, g, v)
    && Get(after.vmAccess, (u, v)) == VmAccessRow(db, req, u, v)
    && Get(after.users, u) == AccountRow(db, req, u)
    && Get(after.pending, q) == PendingRow(db, req, q)
    && after.now == db.now && after.vms == db.vms
  }

  // -- The proof: what each endpoint writes, then its rows ---------------------------------------

  function Activated(db: Db, t: UserId, active: Option<bool>): Db {
    if active.None? then db else SetActive(db, t, active.value)
  }

  function Rekinded(db: Db, t: UserId, kind: Option<Kind>): Db {
    if kind.None? then db else ReplaceRoles(db, t, kind.value)
  }

  /** The tables after an accepted request, in the terms of the endpoints. */
  function Written(db: Db, req: Request): Db {
    match req
    case ReqCreateRole(x, name, perms) => PutRole(db, x, Role(name, false, perms))
    case ReqEditRole(x, name, perms) => PatchRole(db, x, name, perms)
    case ReqDeleteRole(x) => DropRole(db, x)
    case ReqAssignRole(t, x, e) => PutUserRole(db, t, x, e)
    case ReqRemoveRole(t, x) => DropUserRole(db, t, x)
    case ReqGrantPermission(t, c, e) => PutUserPerm(db, t, c, e)
    case ReqRevokePermission(t, c) => DropUserPerm(db, t, c)
    case ReqCreateGroup(x, name) => PutGroup(db, x, name)
    case ReqRenameGroup(x, name) => PatchGroup(db, x, name)
    case ReqDeleteGroup(x) => DropGroup(db, x)
    case ReqAddMember(x, t, e) => PutMember(db, x, t, e)
    case ReqRemoveMember(x, t) => DropMember(db, x, t)
    case ReqLinkRole(x, y, e) => PutLink(db, x, y, e)
    case ReqUnlinkRole(x, y) => DropLink(db, x, y)
    case ReqGrantVm(x, w, ps, e) => PutGroupVm(db, x, w, VmGrant(ps, e))
    case ReqRevokeVm(x, w) => DropGroupVm(db, x, w)
    case ReqCreateUser(t, name, secret, kind) => InsertUser(db, t, name, secret, kind)
    case ReqUpdateUser(t, active, kind, secret) => SetPassword(Rekinded(Activated(db, t, active), t, kind), t, secret)
    case ReqDeleteUser(t) => DropUser(db, t)
    case ReqApprove(x, t, kind) => Admit(db, x, t, kind)
  }

  lemma RoleRequestWrites(db: Db, actor: UserId, req: Request)
    requires req.ReqCreateRole? || req.ReqEditRole? || req.ReqDeleteRole?
    requires Serve(db, actor, req).reply.Done?
    ensures Serve(db, actor, req).db == Written(db, req)
  {
    hide CreateRoleRefusal, EditRoleRefusal, DeleteRoleRefusal,
         PutRole, PatchRole, DropRole;
  }

  lemma GrantRequestWrites(db: Db, actor: UserId, req: Request)
    requires req.ReqAssignRole? || req.ReqRemoveRole? || req.ReqGrantPermission? || req.ReqRevokePermission?
    requires Serve(db, actor, req).reply.Done?
    ensures Serve(db, actor, req).db == Written(db, req)
  {
    hide AssignRoleRefusal, RemoveRoleRefusal, GrantPermissionRefusal, RevokePermissionRefusal,
         PutUserRole, DropUserRole, PutUserPerm, DropUserPerm;
  }

  lemma GroupRequestWrites(db: Db, actor: UserId, req: Request)
    requires req.ReqCreateGroup? || req.ReqRenameGroup? || req.ReqDeleteGroup? || req.ReqAddMember? || req.ReqRemoveMember?
    requires Serve(db, actor, req).reply.Done?
    ensures Serve(db, actor, req).db == Written(db, req)
  {
    hide CreateGroupRefusal, RenameGroupRefusal, GroupRefusal, AddMemberRefusal, RemoveMemberRefusal,
         PutGroup, PatchGroup, DropGroup, PutMember, DropMember;
  }

  lemma LinkRequestWrites(db: Db, actor: UserId, req: Request)
    requires req.ReqLinkRole? || req.ReqUnlinkRole? || req.ReqGrantVm? || req.ReqRevokeVm?
    requires Serve(db, actor, req).reply.Done?
    ensures Serve(db, actor, req).db == Written(db, req)
  {
    hide LinkRoleRefusal, UnlinkRoleRefusal, GrantVmRefusal, RevokeVmRefusal,
         PutLink, DropLink, PutGroupVm, DropGroupVm;
  }

  lemma AccountRequestWrites(db: Db, actor: UserId, req: Request)
    requires req.ReqCreateUser? || req.ReqDeleteUser?
    requires Serve(db, actor, req).reply.Done?
    ensures Serve(db, actor, req).db == Written(db, req)
  {
    hide CreateUserRefusal, DeleteUserRefusal,
         InsertUser, DropUser;
  }

  lemma UpdateRequestWrites(db: Db, actor: UserId, req: Request)
    requires req.ReqUpdateUser? && Serve(db, actor, req).reply.Done?
    ensures Serve(db, actor, req).db == Written(db, req)
  {
    hide UpdateUserRefusal, DeactivationRefusal, KindRefusal, SetActive, ReplaceRoles, SetPassword;
  }

  lemma ApproveRequestWrites(db: Db, actor: UserId, req: Request)
    requires req.ReqApprove? && Serve(db, actor, req).reply.Done?
    ensures req.request in db.pending && Serve(db, actor, req).db == Written(db, req)
  {
    hide MayUse, MayConfer, BuiltInRole, UsernameTaken, Admit, DropPending;
  }

  lemma RenamedExists(db: Db, actor: UserId, req: Request)
    requires req.ReqRenameGroup? && Serve(db, actor, req).reply.Done?
    ensures req.group in db.groups
  {
    hide MayUse, GroupNameTaken;
  }

  lemma RequestWrites(db: Db, actor: UserId, req: Request)
    requires Serve(db, actor, req).reply.Done?
    ensures Serve(db, actor, req).db == Written(db, req)
    ensures req.ReqApprove? ==> req.request in db.pending
    ensures req.ReqRenameGroup? ==> req.group in db.groups
  {
    hide Serve, Written;
    if req.ReqCreateRole? || req.ReqEditRole? || req.ReqDeleteRole? {
      RoleRequestWrites(db, actor, req);
    } else if req.ReqAssignRole? || req.ReqRemoveRole? || req.ReqGrantPermission? || req.ReqRevokePermission? {
      GrantRequestWrites(db, actor, req);
    } else if req.ReqCreateGroup? || req.ReqRenameGroup? || req.ReqDeleteGroup? || req.ReqAddMember? || req.ReqRemoveMember? {
      GroupRequestWrites(db, actor, req);
      if req.ReqRenameGroup? { RenamedExists(db, actor, req); }
    } else if req.ReqLinkRole? || req.ReqUnlinkRole? || req.ReqGrantVm? || req.ReqRevokeVm? {
      LinkRequestWrites(db, actor, req);
    } else if req.ReqCreateUser? || req.ReqDeleteUser? {
      AccountRequestWrites(db, actor, req);
    } else if req.ReqUpdateUser? {
      UpdateRequestWrites(db, actor, req);
    } else {
      ApproveRequestWrites(db, actor, req);
    }
  }

  lemma CreateRoleRows(db: Db, x: RoleId, name: RoleName, perms: set<Permission>, u: UserId, r: RoleId, p: Permission, g: GroupId, v: VmId, q: RequestId)
    ensures var req := ReqCreateRole(x, name, perms); Leaves(db, req, Written(db, req), u, r, p, g, v, q)
  {
    assert Written(db, ReqCreateRole(x, name, perms)) == PutRole(db, x, Role(name, false, perms));
    hide Written;
  }

  lemma PatchedRow(db: Db, x: RoleId, name: Option<RoleName>, perms: Option<set<Permission>>, r: RoleId)
    ensures var after := PatchRole(db, x, name, perms);
            after == db.(roles := after.roles) && Get(after.roles, r) == RoleRow(db, ReqEditRole(x, name, perms), r)
  {
    if x in db.roles {
      assert PatchRole(db, x, name, perms) == db.(roles := db.roles[x := Edited(db.roles[x], name, perms)]);
    } else {
      assert PatchRole(db, x, name, perms) == db;
    }
  }

  lemma EditRoleRows(db: Db, x: RoleId, name: Option<RoleName>, perms: Option<set<Permission>>, u: UserId, r: RoleId, p: Permission, g: GroupId, v: VmId, q: RequestId)
    ensures var req := ReqEditRole(x, name, perms); Leaves(db, req, Written(db, req), u, r, p, g, v, q)
  {
    assert Written(db, ReqEditRole(x, name, perms)) == PatchRole(db, x, name, perms);
    PatchedRow(db, x, name, perms, r);
    hide Written, PatchRole, RoleRow;
  }

  lemma DeleteRoleRows(db: Db, x: RoleId, u: UserId, r: RoleId, p: Permission, g: GroupId, v: VmId, q: RequestId)
    ensures var req := ReqDeleteRole(x); Leaves(db, req, Written(db, req), u, r, p, g, v, q)
  {
    hide WithoutRight;
    assert Written(db, ReqDeleteRole(x)) == DropRole(db, x);
    RightCut(db.userRoles, x, u, r);
    RightCut(db.groupRoles, x, g, r);
    hide Written;
  }

  lemma AssignRoleRows(db: Db, t: UserId, x: RoleId, e: Expiry, u: UserId, r: RoleId, p: Permission, g: GroupId, v: VmId, q: RequestId)
    ensures var req := ReqAssignRole(t, x, e); Leaves(db, req, Written(db, req), u, r, p, g, v, q)
  {
    assert Written(db, ReqAssignRole(t, x, e)) == PutUserRole(db, t, x, e);
    hide Written;
  }

  lemma RemoveRoleRows(db: Db, t: UserId, x: RoleId, u: UserId, r: RoleId, p: Permission, g: GroupId, v: VmId, q: RequestId)
    ensures var req := ReqRemoveRole(t, x); Leaves(db, req, Written(db, req), u, r, p, g, v, q)
  {
    assert Written(db, ReqRemoveRole(t, x)) == DropUserRole(db, t, x);
    hide Written;
  }

  lemma GrantPermissionRows(db: Db, t: UserId, c: Permission, e: Expiry, u: UserId, r: RoleId, p: Permission, g: GroupId, v: VmId, q: RequestId)
    ensures var req := ReqGrantPermission(t, c, e); Leaves(db, req, Written(db, req), u, r, p, g, v, q)
  {
    assert Written(db, ReqGrantPermission(t, c, e)) == PutUserPerm(db, t, c, e);
    hide Written;
  }

  lemma RevokePermissionRows(db: Db, t: UserId, c: Permission, u: UserId, r: RoleId, p: Permission, g: GroupId, v: VmId, q: RequestId)
    ensures var req := ReqRevokePermission(t, c); Leaves(db, req, Written(db, req), u, r, p, g, v, q)
  {
    assert Written(db, ReqRevokePermission(t, c)) == DropUserPerm(db, t, c);
    hide Written;
  }

  lemma CreateGroupRows(db: Db, x: GroupId, name: string, u: UserId, r: RoleId, p: Permission, g: GroupId, v: VmId, q: RequestId)
    ensures var req := ReqCreateGroup(x, name); Leaves(db, req, Written(db, req), u, r, p, g, v, q)
  {
    assert Written(db, ReqCreateGroup(x, name)) == PutGroup(db, x, name);
    hide Written;
  }

  lemma RenameGroupRows(db: Db, x: GroupId, name: Option<string>, u: UserId, r: RoleId, p: Permission, g: GroupId, v: VmId, q: RequestId)
    requires x in db.groups
    ensures var req := ReqRenameGroup(x, name); Leaves(db, req, Written(db, req), u, r, p, g, v, q)
  {
    assert Written(db, ReqRenameGroup(x, name)) == PatchGroup(db, x, name);
    hide Written;
  }

  lemma DeleteGroupRows(db: Db, x: GroupId, u: UserId, r: RoleId, p: Permission, g: GroupId, v: VmId, q: RequestId)
    ensures var req := ReqDeleteGroup(x); Leaves(db, req, Written(db, req), u, r, p, g, v, q)
  {
    hide WithoutLeft;
    assert Written(db, ReqDeleteGroup(x)) == DropGroup(db, x);
    LeftCut(db.members, x, g, u);
    LeftCut(db.groupRoles, x, g, r);
    LeftCut(db.groupVms, x, g, v);
    hide Written;
  }

  lemma AddMemberRows(db: Db, x: GroupId, t: UserId, e: Expiry, u: UserId, r: RoleId, p: Permission, g: GroupId, v: VmId, q: RequestId)
    ensures var req := ReqAddMember(x, t, e); Leaves(db, req, Written(db, req), u, r, p, g, v, q)
  {
    assert Written(db, ReqAddMember(x, t, e)) == PutMember(db, x, t, e);
    hide Written;
  }

  lemma RemoveMemberRows(db: Db, x: GroupId, t: UserId, u: UserId, r: RoleId, p: Permission, g: GroupId, v: VmId, q: RequestId)
    ensures var req := ReqRemoveMember(x, t); Leaves(db, req, Written(db, req), u, r, p, g, v, q)
  {
    assert Written(db, ReqRemoveMember(x, t)) == DropMember(db, x, t);
    hide Written;
  }

  lemma LinkRoleRows(db: Db, x: GroupId, y: RoleId, e: Expiry, u: UserId, r: RoleId, p: Permission, g: GroupId, v: VmId, q: RequestId)
    ensures var req := ReqLinkRole(x, y, e); Leaves(db, req, Written(db, req), u, r, p, g, v, q)
  {
    assert Written(db, ReqLinkRole(x, y, e)) == PutLink(db, x, y, e);
    hide Written;
  }

  lemma UnlinkRoleRows(db: Db, x: GroupId, y: RoleId, u: UserId, r: RoleId, p: Permission, g: GroupId, v: VmId, q: RequestId)
    ensures var req := ReqUnlinkRole(x, y); Leaves(db, req, Written(db, req), u, r, p, g, v, q)
  {
    assert Written(db, ReqUnlinkRole(x, y)) == DropLink(db, x, y);
    hide Written;
  }

  lemma GrantVmRows(db: Db, x: GroupId, w: VmId, ps: Option<set<Protocol>>, e: Expiry, u: UserId, r: RoleId, p: Permission, g: GroupId, v: VmId, q: RequestId)
    ensures var req := ReqGrantVm(x, w, ps, e); Leaves(db, req, Written(db, req), u, r, p, g, v, q)
  {
    assert Written(db, ReqGrantVm(x, w, ps, e)) == PutGroupVm(db, x, w, VmGrant(ps, e));
    hide Written;
  }

  lemma RevokeVmRows(db: Db, x: GroupId, w: VmId, u: UserId, r: RoleId, p: Permission, g: GroupId, v: VmId, q: RequestId)
    ensures var req := ReqRevokeVm(x, w); Leaves(db, req, Written(db, req), u, r, p, g, v, q)
  {
    assert Written(db, ReqRevokeVm(x, w)) == DropGroupVm(db, x, w);
    hide Written;
  }

  lemma CreateUserRows(db: Db, t: UserId, name: string, secret: string, kind: Kind, u: UserId, r: RoleId, p: Permission, g: GroupId, v: VmId, q: RequestId)
    ensures var req := ReqCreateUser(t, name, secret, kind); Leaves(db, req, Written(db, req), u, r, p, g, v, q)
  {
    assert Written(db, ReqCreateUser(t, name, secret, kind)) == InsertUser(db, t, name, secret, kind);
    hide Written;
  }

  lemma ActivatedRows(db: Db, t: UserId, active: Option<bool>, u: UserId)
    ensures var after := Activated(db, t, active);
            && after == db.(users := after.users)
            && Get(after.users, u) ==
               if u == t && u in db.users && active.Some? then Some(db.users[u].(active := active.value)) else Get(db.users, u)
  {
    if active.Some? && t in db.users {
      assert Activated(db, t, active) == db.(users := db.users[t := db.users[t].(active := active.value)]);
    } else {
      assert Activated(db, t, active) == db;
    }
  }

  lemma RekindedRows(db: Db, t: UserId, kind: Option<Kind>, u: UserId, r: RoleId)
    ensures var after := Rekinded(db, t, kind);
            && after == db.(userRoles := after.userRoles)
            && Get(after.userRoles, (u, r)) ==
               if u != t || kind.None? then Get(db.userRoles, (u, r)) else if r == RoleIdOf(kind.value) then Some(None) else None
  {
  }

  lemma PasswordRows(db: Db, t: UserId, secret: Option<string>, u: UserId)
    ensures var after := SetPassword(db, t, secret);
            && after == db.(users := after.users)
            && Get(after.users, u) ==
               if u == t && u in db.users && secret.Some? then Some(db.users[u].(password := secret.value)) else Get(db.users, u)
  {
    if secret.Some? && t in db.users {
      assert SetPassword(db, t, secret) == db.(users := db.users[t := db.users[t].(password := secret.value)]);
    } else {
      assert SetPassword(db, t, secret) == db;
    }
  }

  lemma UpdateUserRows(db: Db, t: UserId, active: Option<bool>, kind: Option<Kind>, secret: Option<string>, u: UserId, r: RoleId, p: Permission, g: GroupId, v: VmId, q: RequestId)
    ensures var req := ReqUpdateUser(t, active, kind, secret); Leaves(db, req, Written(db, req), u, r, p, g, v, q)
  {
    hide Activated, Rekinded, SetPassword;
    var first := Activated(db, t, active);
    var second := Rekinded(first, t, kind);
    ActivatedRows(db, t, active, u);
    RekindedRows(first, t, kind, u, r);
    PasswordRows(second, t, secret, u);
  }

  lemma LeftCut<A, B, V>(rows: map<(A, B), V>, x: A, a: A, b: B)
    ensures Get(WithoutLeft(rows, x), (a, b)) == if a == x then None else Get(rows, (a, b))
  {
  }

  lemma RightCut<A, B, V>(rows: map<(A, B), V>, x: B, a: A, b: B)
    ensures Get(WithoutRight(rows, x), (a, b)) == if b == x then None else Get(rows, (a, b))
  {
  }

  lemma DeleteUserRows(db: Db, t: UserId, u: UserId, r: RoleId, p: Permission, g: GroupId, v: VmId, q: RequestId)
    ensures var req := ReqDeleteUser(t); Leaves(db, req, Written(db, req), u, r, p, g, v, q)
  {
    hide WithoutLeft, WithoutRight;
    assert Written(db, ReqDeleteUser(t)) == DropUser(db, t);
    LeftCut(db.userRoles, t, u, r);
    LeftCut(db.userPerms, t, u, p);
    RightCut(db.members, t, g, u);
    LeftCut(db.vmAccess, t, u, v);
    hide Written;
  }

  lemma ApproveRows(db: Db, x: RequestId, t: UserId, kind: Kind, u: UserId, r: RoleId, p: Permission, g: GroupId, v: VmId, q: RequestId)
    requires x in db.pending
    ensures var req := ReqApprove(x, t, kind); Leaves(db, req, Written(db, req), u, r, p, g, v, q)
  {
    assert Written(db, ReqApprove(x, t, kind)) == Admit(db, x, t, kind);
    hide Written;
  }

  lemma WrittenRows(db: Db, req: Request, u: UserId, r: RoleId, p: Permission, g: GroupId, v: VmId, q: RequestId)
    requires (req.ReqApprove? ==> req.request in db.pending) && (req.ReqRenameGroup? ==> req.group in db.groups)
    ensures Leaves(db, req, Written(db, req), u, r, p, g, v, q)
  {
    hide Leaves, Written;
    match req
    case ReqCreateRole(x, name, perms) => CreateRoleRows(db, x, name, perms, u, r, p, g, v, q);
    case ReqEditRole(x, name, perms) => EditRoleRows(db, x, name, perms, u, r, p, g, v, q);
    case ReqDeleteRole(x) => DeleteRoleRows(db, x, u, r, p, g, v, q);
    case ReqAssignRole(t, x, e) => AssignRoleRows(db, t, x, e, u, r, p, g, v, q);
    case ReqRemoveRole(t, x) => RemoveRoleRows(db, t, x, u, r, p, g, v, q);
    case ReqGrantPermission(t, c, e) => GrantPermissionRows(db, t, c, e, u, r, p, g, v, q);
    case ReqRevokePermission(t, c) => RevokePermissionRows(db, t, c, u, r, p, g, v, q);
    case ReqCreateGroup(x, name) => CreateGroupRows(db, x, name, u, r, p, g, v, q);
    case ReqRenameGroup(x, name) => RenameGroupRows(db, x, name, u, r, p, g, v, q);
    case ReqDeleteGroup(x) => DeleteGroupRows(db, x, u, r, p, g, v, q);
    case ReqAddMember(x, t, e) => AddMemberRows(db, x, t, e, u, r, p, g, v, q);
    case ReqRemoveMember(x, t) => RemoveMemberRows(db, x, t, u, r, p, g, v, q);
    case ReqLinkRole(x, y, e) => LinkRoleRows(db, x, y, e, u, r, p, g, v, q);
    case ReqUnlinkRole(x, y) => UnlinkRoleRows(db, x, y, u, r, p, g, v, q);
    case ReqGrantVm(x, w, ps, e) => GrantVmRows(db, x, w, ps, e, u, r, p, g, v, q);
    case ReqRevokeVm(x, w) => RevokeVmRows(db, x, w, u, r, p, g, v, q);
    case ReqCreateUser(t, name, secret, kind) => CreateUserRows(db, t, name, secret, kind, u, r, p, g, v, q);
    case ReqUpdateUser(t, active, kind, secret) => UpdateUserRows(db, t, active, kind, secret, u, r, p, g, v, q);
    case ReqDeleteUser(t) => DeleteUserRows(db, t, u, r, p, g, v, q);
    case ReqApprove(x, t, kind) => ApproveRows(db, x, t, kind, u, r, p, g, v, q);
  }

  /** An accepted request leaves exactly these rows, at every key of every table. */
  lemma AcceptedRows(db: Db, actor: UserId, req: Request, u: UserId, r: RoleId, p: Permission, g: GroupId, v: VmId, q: RequestId)
    requires Serve(db, actor, req).reply.Done?
    ensures Leaves(db, req, Serve(db, actor, req).db, u, r, p, g, v, q)
  {
    hide Serve, Leaves, Written;
    RequestWrites(db, actor, req);
    WrittenRows(db, req, u, r, p, g, v, q);
  }

  // -- What a refused request leaves -----------------------------------------------------------

  /** The `active` part of the update goes through; what is refused comes after it. */
  ghost predicate HalfUpdated(db: Db, a: UserId, req: Request) {
    && req.ReqUpdateUser? && req.active.Some?
    && Present(db, a) && Holds(db, a, Known(UsersManage)) && req.newKind != Some(GUEST)
    && req.target in db.users && Tops(db, a, req.target)
    && (req.active == Some(false) ==> req.target != a && !Shielded(db, req.target))
  }

  /** Everything is in order with the approval but the age of the request. */
  ghost predicate FindsExpired(db: Db, a: UserId, req: Request) {
    && req.ReqApprove? && Present(db, a) && !Lacks(db, a, req) && !Absent(db, req) && !Improper(db, a, req) && !Overreaches(db, a, req)
    && db.pending[req.request].createdAt < db.now - 2592000000
  }

  lemma OtherRefusal(db: Db, a: UserId, req: Request)
    requires !req.ReqUpdateUser? && !req.ReqApprove? && Serve(db, a, req).reply.Refused?
    ensures Serve(db, a, req).db == db
  {
    hide CreateRoleRefusal, EditRoleRefusal, DeleteRoleRefusal, AssignRoleRefusal, RemoveRoleRefusal, GrantPermissionRefusal,
         RevokePermissionRefusal, CreateGroupRefusal, RenameGroupRefusal, GroupRefusal, AddMemberRefusal, RemoveMemberRefusal,
         LinkRoleRefusal, UnlinkRoleRefusal, GrantVmRefusal, RevokeVmRefusal, CreateUserRefusal, DeleteUserRefusal;
    hide PutRole, PatchRole, DropRole, PutUserRole, DropUserRole, PutUserPerm, DropUserPerm, PutGroup, PatchGroup, DropGroup,
         PutMember, DropMember, PutLink, DropLink, PutGroupVm, DropGroupVm, InsertUser, DropUser;
  }

  lemma RefusedUpdateWrites(db: Db, a: UserId, req: Request)
    requires req.ReqUpdateUser? && Serve(db, a, req).reply.Refused?
    ensures Serve(db, a, req).db ==
            if UpdateUserRefusal(db, a, req.target, req.newKind).None? && UpdateActive(db, a, req.target, req.active).reply.Done?
            then Activated(db, req.target, req.active) else db
  {
    hide UpdateUserRefusal, DeactivationRefusal, KindRefusal, SetActive, ReplaceRoles, SetPassword;
  }

  lemma RefusedUpdate(db: Db, a: UserId, req: Request, u: UserId)
    requires req.ReqUpdateUser? && Serve(db, a, req).reply.Refused?
    ensures var after := Serve(db, a, req).db;
            if HalfUpdated(db, a, req) then
              && after == db.(users := after.users)
              && Get(after.users, u) == if u == req.target then Some(db.users[u].(active := req.active.value)) else Get(db.users, u)
            else after == db
  {
    hide Serve, Holds, Present, Tops, Shielded, UpdateUserRefusal, UpdateActive, SetActive;
    RefusedUpdateWrites(db, a, req);
    UpdateGuard(db, a, req.target, req.newKind);
    ActiveChecks(db, a, req.target, req.active);
    ActivatedRows(db, req.target, req.active, u);
  }

  lemma RefusedApprovalWrites(db: Db, a: UserId, req: Request)
    requires req.ReqApprove? && Serve(db, a, req).reply.Refused?
    ensures Serve(db, a, req).db ==
            if ApproveRefusal(db, a, req.request, req.kind).None? && db.pending[req.request].createdAt < db.now - 2592000000
            then DropPending(db, req.request) else db
    ensures ApproveRefusal(db, a, req.request, req.kind).None? ==> req.request in db.pending
  {
    hide MayUse, MayConfer, BuiltInRole, UsernameTaken, Admit, DropPending;
  }

  lemma ApprovalChecks(db: Db, a: UserId, req: Request)
    requires req.ReqApprove?
    ensures ApproveRefusal(db, a, req.request, req.kind).None? <==>
            Present(db, a) && !Lacks(db, a, req) && !Absent(db, req) && !Improper(db, a, req) && !Overreaches(db, a, req)
  {
    hide MayUse, GuardError, Holds, Present, MayConfer, RoleConfers, Carries, RoleIdOf;
    Guards(db, a, UsersManage);
    if RoleIdOf(req.kind) in db.roles { Confers(db, a, db.roles[RoleIdOf(req.kind)]); }
  }

  lemma RefusedApproval(db: Db, a: UserId, req: Request, q: RequestId)
    requires req.ReqApprove? && Serve(db, a, req).reply.Refused?
    ensures var after := Serve(db, a, req).db;
            if FindsExpired(db, a, req) then
              && after == db.(pending := after.pending)
              && Get(after.pending, q) == if q == req.request then None else Get(db.pending, q)
            else after == db
  {
    hide Serve, Present, Lacks, Improper, Overreaches, ApproveRefusal;
    RefusedApprovalWrites(db, a, req);
    ApprovalChecks(db, a, req);
  }

  /** A refused request changes at most the target's active flag, or drops the expired join request it names. */
  lemma RefusedRows(db: Db, a: UserId, req: Request, u: UserId, q: RequestId)
    requires Serve(db, a, req).reply.Refused?
    ensures var after := Serve(db, a, req).db;
            if HalfUpdated(db, a, req) then
              && after == db.(users := after.users)
              && Get(after.users, u) == if u == req.target then Some(db.users[u].(active := req.active.value)) else Get(db.users, u)
            else if FindsExpired(db, a, req) then
              && after == db.(pending := after.pending)
              && Get(after.pending, q) == if q == req.request then None else Get(db.pending, q)
            else after == db
  {
    hide Serve, Present, Holds, Tops, Shielded, Lacks, Absent, Improper, Overreaches;
    if req.ReqUpdateUser? {
      RefusedUpdate(db, a, req, u);
    } else if req.ReqApprove? {
      RefusedApproval(db, a, req, q);
    } else {
      OtherRefusal(db, a, req);
    }
  }

  // -- What the clock, the sweep and strangers leave ----------------------------------------------

  lemma TickRows(db: Db, to: int)
    ensures var after := Next(db, Tick(to)); after == db.(now := after.now) && after.now == if to > db.now then to else db.now
  {
  }

  function Pruned<K, V>(rows: map<K, V>, k: K, keep: bool): Option<V> {
    if keep then Get(rows, k) else None
  }

  /** The sweep removes exactly the expired rows of five tables, but not the direct grants it could not revoke. */
  lemma SweptRows(db: Db, stuck: set<(UserId, VmId)>, u: UserId, r: RoleId, p: Permission, g: GroupId, v: VmId)
    ensures var after := Next(db, Swept(stuck));
            && Get(after.userPerms, (u, p)) == Pruned(db.userPerms, (u, p), (u, p) in db.userPerms && Unexpired(db.userPerms[(u, p)], db.now))
            && Get(after.members, (g, u)) == Pruned(db.members, (g, u), (g, u) in db.members && Unexpired(db.members[(g, u)], db.now))
            && Get(after.groupRoles, (g, r)) == Pruned(db.groupRoles, (g, r), (g, r) in db.groupRoles && Unexpired(db.groupRoles[(g, r)], db.now))
            && Get(after.groupVms, (g, v)) == Pruned(db.groupVms, (g, v), (g, v) in db.groupVms && Unexpired(db.groupVms[(g, v)].expires, db.now))
            && Get(after.vmAccess, (u, v)) ==
               Pruned(db.vmAccess, (u, v), (u, v) in stuck || ((u, v) in db.vmAccess && Unexpired(db.vmAccess[(u, v)].expires, db.now)))
            && after == db.(userPerms := after.userPerms, members := after.members, groupRoles := after.groupRoles,
                            groupVms := after.groupVms, vmAccess := after.vmAccess)
  {
  }

  /** A stranger with a free name and identifier becomes an active guest, and nothing else. */
  lemma SignedUpRows(db: Db, newId: UserId, username: string, password: string, u: UserId, r: RoleId)
    ensures var after := Next(db, SignUp(newId, username, password));
            var accepted := newId !in db.users && !exists x :: x in db.users && db.users[x].username == username;
            && after == db.(users := after.users, userRoles := after.userRoles)
            && Get(after.users, u) == (if accepted && u == newId then Some(Account(username, true, false, password)) else Get(db.users, u))
            && Get(after.userRoles, (u, r)) == (if accepted && u == newId && r == RoleIdOf(GUEST) then Some(None) else Get(db.userRoles, (u, r)))
  {
    hide Serve;
  }

  predicate Outdated(db: Db, q: RequestId, username: string)
    requires q in db.pending
  {
    db.pending[q].username == username && db.pending[q].createdAt < db.now - 2592000000
  }

  /**
   A join request for a name nobody has removes outdated ones for that name, and is queued unless one for
   that name is left.
   */
  lemma AskedRows(db: Db, request: RequestId, username: string, password: string, q: RequestId)
    ensures var after := Next(db, AskToJoin(request, username, password));
            var taken := exists x :: x in db.users && db.users[x].username == username;
            var queued := !exists x :: x in db.pending && !Outdated(db, x, username) && (x == request || db.pending[x].username == username);
            && after == db.(pending := after.pending)
            && Get(after.pending, q) ==
               if taken then Get(db.pending, q)
               else if q == request && queued then Some(Registration(username, password, db.now))
               else if q in db.pending && !Outdated(db, q, username) then Some(db.pending[q])
               else None
  {
    hide Serve, Outdated, Queued;
    AskIs(db, request, username, password);
    QueuedRows(db, request, username, password, q);
  }

  lemma AskIs(db: Db, request: RequestId, username: string, password: string)
    ensures Ask(db, request, username, password) ==
            if exists x :: x in db.users && db.users[x].username == username then db
            else db.(pending := Queued(db, request, username, password))
  {
    hide Queued;
  }

  lemma QueuedRows(db: Db, request: RequestId, username: string, password: string, q: RequestId)
    ensures var queued := !exists x :: x in db.pending && !Outdated(db, x, username) && (x == request || db.pending[x].username == username);
            Get(Queued(db, request, username, password), q) ==
               if q == request && queued then Some(Registration(username, password, db.now))
               else if q in db.pending && !Outdated(db, q, username) then Some(db.pending[q])
               else None
  {
    var kept := map x | x in db.pending && !Outdated(db, x, username) :: db.pending[x];
    assert kept == map x | x in db.pending && !(db.pending[x].username == username && db.pending[x].createdAt < db.now - PENDING_MAX) :: db.pending[x];
    var queued := !exists x :: x in db.pending && !Outdated(db, x, username) && (x == request || db.pending[x].username == username);
    assert queued <==> !(request in kept || exists x :: x in kept && kept[x].username == username) by {
      if x :| x in db.pending && !Outdated(db, x, username) && (x == request || db.pending[x].username == username) { assert x in kept; }
      if x :| x in kept && kept[x].username == username { assert x in db.pending && !Outdated(db, x, username); }
    }
    hide Outdated;
  }
}
