/**
 The access-control tables, the resolution of a user's effective permissions, and
 every role, grant, group and account endpoint as a step on those tables.
 Each endpoint keeps the order of its checks, because the order decides which
 error a caller sees and what has already been written when a later check fails.
 */
module Iam {
  import opened Common

  type UserId = int
  type RoleId = int
  type GroupId = int
  type VmId = int
  type RequestId = int

  /** The permission codes the backend enforces. */
  datatype Code =
    | VmList | VmRead | VmCreate | VmManage | VmEdit | VmDelete | VmProvision
    | VmStart | VmStop | VmRestart
    | CredReveal | CredRotate
    | GuacLaunch | GuacManage
    | ProtocolSsh | ProtocolRdp | ProtocolVnc
    | UsersManage | RolesManage | GroupsManage
    | TemplatesManage | AuditRead
    | JobsRead | JobsRetry | JobsCancel
    | SettingsManage | HealthRead | ProxmoxRead | DriftManage

  /** A permission string: a catalog code, or anything else a caller may send. */
  datatype Permission = Known(code: Code) | Unknown(text: string)

  predicate InCatalog(ps: set<Permission>) {
    forall p :: p in ps ==> p.Known?
  }

  datatype Kind = ADMIN | OPERATOR | USER | GUEST

  /** The hardcoded sets of the built-in roles. */
  predicate BuiltInGrants(kind: Kind, c: Code) {
    match kind
    case ADMIN => true
    case OPERATOR =>
      c.VmList? || c.VmRead? || c.VmCreate? || c.VmManage? || c.VmEdit? || c.VmProvision? || c.CredRotate? ||
      c.GuacLaunch? || c.GuacManage? || c.JobsRead? || c.JobsRetry? || c.JobsCancel? || c.HealthRead? || c.ProxmoxRead?
    case USER => c.VmRead? || c.GuacLaunch? || c.JobsRead? || c.HealthRead?
    case GUEST => false
  }

  function BuiltInPermissions(kind: Kind): set<Permission> {
    set c: Code | BuiltInGrants(kind, c) :: Known(c)
  }

  /** `Named` is any role name other than the four reserved words. */
  datatype RoleName = BuiltIn(kind: Kind) | Named(text: string)

  /** A role with its `role_permissions` rows. */
  datatype Role = Role(name: RoleName, isSystem: bool, stored: set<Permission>)

  function RoleIdOf(kind: Kind): RoleId {
    match kind
    case ADMIN => 1
    case OPERATOR => 2
    case USER => 3
    case GUEST => 4
  }

  datatype Account = Account(username: string, active: bool, initialAdmin: bool, password: string)

  datatype Registration = Registration(username: string, password: string, createdAt: int)

  datatype Protocol = Ssh | Rdp | Vnc

  /** A `vm_access` or `group_vm_access` row; no protocol list means every protocol. */
  datatype VmGrant = VmGrant(protocols: Option<set<Protocol>>, expires: Expiry)

  /** A row of `vms` whose `deleted_at` is null. */
  datatype Vm = Vm(privacy: bool, owner: Option<UserId>)

  datatype Db = Db(
    now: int,
    users: map<UserId, Account>,
    roles: map<RoleId, Role>,
    userRoles: map<(UserId, RoleId), Expiry>,
    userPerms: map<(UserId, Permission), Expiry>,
    groups: map<GroupId, string>,
    members: map<(GroupId, UserId), Expiry>,
    groupRoles: map<(GroupId, RoleId), Expiry>,
    groupVms: map<(GroupId, VmId), VmGrant>,
    vmAccess: map<(UserId, VmId), VmGrant>,
    vms: map<VmId, Vm>,
    pending: map<RequestId, Registration>)

  // -- Live rows ------------------------------------------------------------

  predicate HasRole(db: Db, u: UserId, r: RoleId) {
    (u, r) in db.userRoles && Live(db.userRoles[(u, r)], db.now)
  }

  predicate HasGrant(db: Db, u: UserId, p: Permission) {
    (u, p) in db.userPerms && Live(db.userPerms[(u, p)], db.now)
  }

  predicate IsMember(db: Db, g: GroupId, u: UserId) {
    (g, u) in db.members && Live(db.members[(g, u)], db.now)
  }

  predicate IsLinked(db: Db, g: GroupId, r: RoleId) {
    (g, r) in db.groupRoles && Live(db.groupRoles[(g, r)], db.now)
  }

  // -- Resolution -----------------------------------------------------------

  /** What the conferral rule counts: the hardcoded set of ADMIN, OPERATOR and USER, else the stored rows. */
  function RoleConfers(role: Role): set<Permission> {
    if role.name.BuiltIn? && role.name.kind != GUEST then BuiltInPermissions(role.name.kind) else role.stored
  }

  /** What a directly assigned role resolves to: the hardcoded set and the stored rows. */
  function RoleResolves(role: Role): set<Permission> {
    role.stored + (if role.name.BuiltIn? then BuiltInPermissions(role.name.kind) else {})
  }

  /** One reason a user holds a permission. */
  datatype Source = ByRole(role: RoleId) | ByGrant | ByGroup(group: GroupId, role: RoleId)

  /** Through a group only the stored rows of the linked roles count. */
  predicate LiveSource(db: Db, u: UserId, p: Permission, src: Source) {
    match src
    case ByRole(r) => HasRole(db, u, r) && r in db.roles && p in RoleResolves(db.roles[r])
    case ByGrant => HasGrant(db, u, p)
    case ByGroup(g, r) => IsMember(db, g, u) && IsLinked(db, g, r) && r in db.roles && p in db.roles[r].stored
  }

  /** Allow-only union: any live source allows. */
  ghost predicate Holds(db: Db, u: UserId, p: Permission) {
    exists src :: LiveSource(db, u, p, src)
  }

  function RolePart(db: Db, u: UserId): set<Permission> {
    set r, p | r in db.roles && HasRole(db, u, r) && p in RoleResolves(db.roles[r]) :: p
  }

  function GrantPart(db: Db, u: UserId): set<Permission> {
    set k | k in db.userPerms && k.0 == u && Live(db.userPerms[k], db.now) :: k.1
  }

  function GroupPart(db: Db, u: UserId): set<Permission> {
    set k, r, p |
      k in db.members && k.1 == u && Live(db.members[k], db.now) &&
      r in db.roles && IsLinked(db, k.0, r) && p in db.roles[r].stored :: p
  }

  lemma PartsAreSources(db: Db, u: UserId, p: Permission)
    ensures p in RolePart(db, u) + GrantPart(db, u) + GroupPart(db, u) <==> Holds(db, u, p)
  {
    if p in RolePart(db, u) {
      var r :| r in db.roles && HasRole(db, u, r) && p in RoleResolves(db.roles[r]);
      assert LiveSource(db, u, p, ByRole(r));
    } else if p in GrantPart(db, u) {
      assert LiveSource(db, u, p, ByGrant);
    } else if p in GroupPart(db, u) {
      var k, r :| k in db.members && k.1 == u && Live(db.members[k], db.now) &&
        r in db.roles && IsLinked(db, k.0, r) && p in db.roles[r].stored;
      assert LiveSource(db, u, p, ByGroup(k.0, r));
    } else if Holds(db, u, p) {
      var src :| LiveSource(db, u, p, src);
    }
  }

  /** `resolveEffectiveAccess(...).permissions`, computed as three joins. */
  function Effective(db: Db, u: UserId): (perms: set<Permission>)
    ensures forall p :: p in perms <==> Holds(db, u, p)
  {
    assert forall p :: p in RolePart(db, u) + GrantPart(db, u) + GroupPart(db, u) <==> Holds(db, u, p) by {
      forall p { PartsAreSources(db, u, p); }
    }
    RolePart(db, u) + GrantPart(db, u) + GroupPart(db, u)
  }

  /** `groupEffectivePermissions`: what the live role links of a group confer, cut to the catalog. */
  function GroupConfers(db: Db, g: GroupId): (perms: set<Permission>)
    ensures forall p :: p in perms <==>
              p.Known? && exists r :: IsLinked(db, g, r) && r in db.roles && p in RoleConfers(db.roles[r])
  {
    set r, p | r in db.roles && IsLinked(db, g, r) && p in RoleConfers(db.roles[r]) && p.Known? :: p
  }

  // -- Guards ---------------------------------------------------------------

  datatype Error = Unauthorized | Forbidden | NotFound | Conflict | Validation

  datatype Reply = Done | Refused(error: Error)

  datatype Outcome = Outcome(db: Db, reply: Reply)

  function Refuse(db: Db, error: Error): Outcome {
    Outcome(db, Refused(error))
  }

  predicate SignedIn(db: Db, actor: UserId) {
    actor in db.users && db.users[actor].active
  }

  /** `requirePermission` on the current database. */
  ghost predicate MayUse(db: Db, actor: UserId, p: Permission) {
    SignedIn(db, actor) && Holds(db, actor, p)
  }

  function GuardError(db: Db, actor: UserId): Error {
    if SignedIn(db, actor) then Forbidden else Unauthorized
  }

  /** `assertMayConfer` */
  ghost predicate MayConfer(db: Db, actor: UserId, ps: set<Permission>) {
    forall p :: p in ps ==> Holds(db, actor, p)
  }

  /** `assertCanAdministerTarget` */
  ghost predicate CanAdminister(db: Db, actor: UserId, target: UserId) {
    actor == target || forall p :: Holds(db, target, p) ==> Holds(db, actor, p)
  }

  /** The checks as the handlers compute them, on resolved permission sets. */
  predicate Allows(db: Db, actor: UserId, p: Permission)
    ensures Allows(db, actor, p) <==> MayUse(db, actor, p)
  {
    SignedIn(db, actor) && p in Effective(db, actor)
  }

  predicate NothingMissing(db: Db, actor: UserId, ps: set<Permission>)
    ensures NothingMissing(db, actor, ps) <==> MayConfer(db, actor, ps)
  {
    forall p :: p in ps ==> p in Effective(db, actor)
  }

  predicate NoOverreach(db: Db, actor: UserId, target: UserId)
    ensures NoOverreach(db, actor, target) <==> CanAdminister(db, actor, target)
  {
    var theirs, mine := Effective(db, target), Effective(db, actor);
    assert forall p :: Holds(db, target, p) ==> p in theirs;
    assert forall p :: Holds(db, actor, p) ==> p in mine;
    actor == target || forall p :: p in theirs ==> p in mine
  }

  /** `parseExpiresAt`: absent means permanent, present must lie in the future. */
  predicate ExpiryOk(db: Db, expires: Expiry) {
    expires.Some? ==> expires.value > db.now
  }

  predicate RoleNameTaken(db: Db, name: RoleName) {
    exists r :: r in db.roles && db.roles[r].name == name
  }

  predicate UsernameTaken(db: Db, username: string) {
    exists u :: u in db.users && db.users[u].username == username
  }

  predicate GroupNameTaken(db: Db, name: string) {
    exists g :: g in db.groups && db.groups[g] == name
  }

  /** The account loads with ADMIN among its unexpired roles. */
  predicate LiveAdmin(db: Db, u: UserId) {
    exists r :: r in db.roles && HasRole(db, u, r) && db.roles[r].name == BuiltIn(ADMIN)
  }

  /** `countActiveAdmins(u) > 0` */
  predicate OtherActiveAdmin(db: Db, u: UserId) {
    exists v :: v in db.users && v != u && db.users[v].active && LiveAdmin(db, v)
  }

  predicate InitialAdmin(db: Db, u: UserId) {
    u in db.users && db.users[u].initialAdmin
  }

  /** Every endpoint checks first and writes last. */
  function Decide(db: Db, refusal: Option<Error>, written: Db): Outcome {
    if refusal.Some? then Refuse(db, refusal.value) else Outcome(written, Done)
  }

  // -- Roles ----------------------------------------------------------------

  ghost function CreateRoleRefusal(db: Db, actor: UserId, newId: RoleId, name: RoleName, perms: set<Permission>): Option<Error> {
    if !MayUse(db, actor, Known(RolesManage)) then Some(GuardError(db, actor))
    else if !InCatalog(perms) then Some(Validation)
    else if RoleNameTaken(db, name) then Some(Conflict)
    else if !MayConfer(db, actor, perms) then Some(Forbidden)
    else if newId in db.roles then Some(Conflict)
    else None
  }

  function PutRole(db: Db, r: RoleId, role: Role): Db {
    db.(roles := db.roles[r := role])
  }

  ghost function CreateRole(db: Db, actor: UserId, newId: RoleId, name: RoleName, perms: set<Permission>): Outcome {
    Decide(db, CreateRoleRefusal(db, actor, newId, name, perms), PutRole(db, newId, Role(name, false, perms)))
  }

  ghost function EditRoleRefusal(db: Db, actor: UserId, r: RoleId, name: Option<RoleName>, perms: Option<set<Permission>>): Option<Error> {
    if !MayUse(db, actor, Known(RolesManage)) then Some(GuardError(db, actor))
    else if r !in db.roles then Some(NotFound)
    else if db.roles[r].isSystem then Some(Forbidden)
    else if perms.Some? && !InCatalog(perms.value) then Some(Validation)
    else if name.Some? && name.value != db.roles[r].name && RoleNameTaken(db, name.value) then Some(Conflict)
    else if perms.Some? && !MayConfer(db, actor, perms.value) then Some(Forbidden)
    else None
  }

  /** An absent name or permission list leaves that part alone. */
  function Edited(role: Role, name: Option<RoleName>, perms: Option<set<Permission>>): Role {
    Role(if name.Some? then name.value else role.name, role.isSystem, if perms.Some? then perms.value else role.stored)
  }

  function PatchRole(db: Db, r: RoleId, name: Option<RoleName>, perms: Option<set<Permission>>): Db {
    if r in db.roles then PutRole(db, r, Edited(db.roles[r], name, perms)) else db
  }

  ghost function EditRole(db: Db, actor: UserId, r: RoleId, name: Option<RoleName>, perms: Option<set<Permission>>): Outcome {
    Decide(db, EditRoleRefusal(db, actor, r, name, perms), PatchRole(db, r, name, perms))
  }

  /** The rows of a link table that survive deleting right-hand key `x` (ON DELETE CASCADE). */
  function WithoutRight<A(==), B(==), V>(m: map<(A, B), V>, x: B): map<(A, B), V> {
    map k | k in m && k.1 != x :: m[k]
  }

  function WithoutLeft<A(==), B(==), V>(m: map<(A, B), V>, x: A): map<(A, B), V> {
    map k | k in m && k.0 != x :: m[k]
  }

  ghost function DeleteRoleRefusal(db: Db, actor: UserId, r: RoleId): Option<Error> {
    if !MayUse(db, actor, Known(RolesManage)) then Some(GuardError(db, actor))
    else if r !in db.roles then Some(NotFound)
    else if db.roles[r].isSystem then Some(Forbidden)
    else None
  }

  function DropRole(db: Db, r: RoleId): Db {
    db.(roles := db.roles - {r},
        userRoles := WithoutRight(db.userRoles, r),
        groupRoles := WithoutRight(db.groupRoles, r))
  }

  ghost function DeleteRole(db: Db, actor: UserId, r: RoleId): Outcome {
    Decide(db, DeleteRoleRefusal(db, actor, r), DropRole(db, r))
  }

  // -- User roles and direct grants ------------------------------------------

  ghost function AssignRoleRefusal(db: Db, actor: UserId, target: UserId, r: RoleId, expires: Expiry): Option<Error> {
    if !MayUse(db, actor, Known(UsersManage)) then Some(GuardError(db, actor))
    else if target !in db.users then Some(NotFound)
    else if r !in db.roles then Some(NotFound)
    else if !CanAdminister(db, actor, target) then Some(Forbidden)
    else if !MayConfer(db, actor, RoleConfers(db.roles[r])) then Some(Forbidden)
    else if !ExpiryOk(db, expires) then Some(Validation)
    else None
  }

  function PutUserRole(db: Db, u: UserId, r: RoleId, expires: Expiry): Db {
    db.(userRoles := db.userRoles[(u, r) := expires])
  }

  /** An upsert: an existing row takes the new expiry. */
  ghost function AssignRole(db: Db, actor: UserId, target: UserId, r: RoleId, expires: Expiry): Outcome {
    Decide(db, AssignRoleRefusal(db, actor, target, r, expires), PutUserRole(db, target, r, expires))
  }

  ghost function RemoveRoleRefusal(db: Db, actor: UserId, target: UserId, r: RoleId): Option<Error> {
    if !MayUse(db, actor, Known(UsersManage)) then Some(GuardError(db, actor))
    else if target !in db.users then Some(NotFound)
    else if r !in db.roles then Some(NotFound)
    else if !CanAdminister(db, actor, target) then Some(Forbidden)
    else if db.roles[r].name == BuiltIn(ADMIN) && InitialAdmin(db, target) then Some(Validation)
    else if db.roles[r].name == BuiltIn(ADMIN) && target == actor && !OtherActiveAdmin(db, target) then Some(Validation)
    else None
  }

  function DropUserRole(db: Db, u: UserId, r: RoleId): Db {
    db.(userRoles := db.userRoles - {(u, r)})
  }

  ghost function RemoveRole(db: Db, actor: UserId, target: UserId, r: RoleId): Outcome {
    Decide(db, RemoveRoleRefusal(db, actor, target, r), DropUserRole(db, target, r))
  }

  ghost function GrantPermissionRefusal(db: Db, actor: UserId, target: UserId, p: Permission, expires: Expiry): Option<Error> {
    if !MayUse(db, actor, Known(UsersManage)) then Some(GuardError(db, actor))
    else if target !in db.users then Some(NotFound)
    else if !InCatalog({p}) then Some(Validation)
    else if !CanAdminister(db, actor, target) then Some(Forbidden)
    else if !MayConfer(db, actor, {p}) then Some(Forbidden)
    else if !ExpiryOk(db, expires) then Some(Validation)
    else None
  }

  function PutUserPerm(db: Db, u: UserId, p: Permission, expires: Expiry): Db {
    db.(userPerms := db.userPerms[(u, p) := expires])
  }

  ghost function GrantPermission(db: Db, actor: UserId, target: UserId, p: Permission, expires: Expiry): Outcome {
    Decide(db, GrantPermissionRefusal(db, actor, target, p, expires), PutUserPerm(db, target, p, expires))
  }

  ghost function RevokePermissionRefusal(db: Db, actor: UserId, target: UserId): Option<Error> {
    if !MayUse(db, actor, Known(UsersManage)) then Some(GuardError(db, actor))
    else if target !in db.users then Some(NotFound)
    else if !CanAdminister(db, actor, target) then Some(Forbidden)
    else None
  }

  function DropUserPerm(db: Db, u: UserId, p: Permission): Db {
    db.(userPerms := db.userPerms - {(u, p)})
  }

  ghost function RevokePermission(db: Db, actor: UserId, target: UserId, p: Permission): Outcome {
    Decide(db, RevokePermissionRefusal(db, actor, target), DropUserPerm(db, target, p))
  }

  // -- Groups ---------------------------------------------------------------

  ghost function CreateGroupRefusal(db: Db, actor: UserId, newId: GroupId, name: string): Option<Error> {
    if !MayUse(db, actor, Known(GroupsManage)) then Some(GuardError(db, actor))
    else if GroupNameTaken(db, name) then Some(Conflict)
    else if newId in db.groups then Some(Conflict)
    else None
  }

  function PutGroup(db: Db, g: GroupId, name: string): Db {
    db.(groups := db.groups[g := name])
  }

  ghost function CreateGroup(db: Db, actor: UserId, newId: GroupId, name: string): Outcome {
    Decide(db, CreateGroupRefusal(db, actor, newId, name), PutGroup(db, newId, name))
  }

  ghost function RenameGroupRefusal(db: Db, actor: UserId, g: GroupId, name: Option<string>): Option<Error> {
    if !MayUse(db, actor, Known(GroupsManage)) then Some(GuardError(db, actor))
    else if g !in db.groups then Some(NotFound)
    else if name.Some? && name.value != db.groups[g] && GroupNameTaken(db, name.value) then Some(Conflict)
    else None
  }

  function PatchGroup(db: Db, g: GroupId, name: Option<string>): Db {
    if g in db.groups && name.Some? then PutGroup(db, g, name.value) else db
  }

  ghost function RenameGroup(db: Db, actor: UserId, g: GroupId, name: Option<string>): Outcome {
    Decide(db, RenameGroupRefusal(db, actor, g, name), PatchGroup(db, g, name))
  }

  ghost function GroupRefusal(db: Db, actor: UserId, g: GroupId): Option<Error> {
    if !MayUse(db, actor, Known(GroupsManage)) then Some(GuardError(db, actor))
    else if g !in db.groups then Some(NotFound)
    else None
  }

  function DropGroup(db: Db, g: GroupId): Db {
    db.(groups := db.groups - {g},
        members := WithoutLeft(db.members, g),
        groupRoles := WithoutLeft(db.groupRoles, g),
        groupVms := WithoutLeft(db.groupVms, g))
  }

  ghost function DeleteGroup(db: Db, actor: UserId, g: GroupId): Outcome {
    Decide(db, GroupRefusal(db, actor, g), DropGroup(db, g))
  }

  ghost function AddMemberRefusal(db: Db, actor: UserId, g: GroupId, target: UserId, expires: Expiry): Option<Error> {
    if !MayUse(db, actor, Known(GroupsManage)) then Some(GuardError(db, actor))
    else if g !in db.groups then Some(NotFound)
    else if target !in db.users then Some(NotFound)
    else if !CanAdminister(db, actor, target) then Some(Forbidden)
    else if !MayConfer(db, actor, GroupConfers(db, g)) then Some(Forbidden)
    else if !ExpiryOk(db, expires) then Some(Validation)
    else None
  }

  function PutMember(db: Db, g: GroupId, u: UserId, expires: Expiry): Db {
    db.(members := db.members[(g, u) := expires])
  }

  ghost function AddMember(db: Db, actor: UserId, g: GroupId, target: UserId, expires: Expiry): Outcome {
    Decide(db, AddMemberRefusal(db, actor, g, target, expires), PutMember(db, g, target, expires))
  }

  /** The target need not exist: the handler carries on with an absent account. */
  ghost function RemoveMemberRefusal(db: Db, actor: UserId, g: GroupId, target: UserId): Option<Error> {
    if !MayUse(db, actor, Known(GroupsManage)) then Some(GuardError(db, actor))
    else if g !in db.groups then Some(NotFound)
    else if !CanAdminister(db, actor, target) then Some(Forbidden)
    else if !MayConfer(db, actor, GroupConfers(db, g)) then Some(Forbidden)
    else None
  }

  function DropMember(db: Db, g: GroupId, u: UserId): Db {
    db.(members := db.members - {(g, u)})
  }

  ghost function RemoveMember(db: Db, actor: UserId, g: GroupId, target: UserId): Outcome {
    Decide(db, RemoveMemberRefusal(db, actor, g, target), DropMember(db, g, target))
  }

  ghost function LinkRoleRefusal(db: Db, actor: UserId, g: GroupId, r: RoleId, expires: Expiry): Option<Error> {
    if !MayUse(db, actor, Known(GroupsManage)) then Some(GuardError(db, actor))
    else if g !in db.groups then Some(NotFound)
    else if r !in db.roles then Some(NotFound)
    else if !MayConfer(db, actor, RoleConfers(db.roles[r])) then Some(Forbidden)
    else if !ExpiryOk(db, expires) then Some(Validation)
    else None
  }

  function PutLink(db: Db, g: GroupId, r: RoleId, expires: Expiry): Db {
    db.(groupRoles := db.groupRoles[(g, r) := expires])
  }

  ghost function LinkRole(db: Db, actor: UserId, g: GroupId, r: RoleId, expires: Expiry): Outcome {
    Decide(db, LinkRoleRefusal(db, actor, g, r, expires), PutLink(db, g, r, expires))
  }

  /** A role that no longer exists is unlinked without a conferral check. */
  ghost function UnlinkRoleRefusal(db: Db, actor: UserId, g: GroupId, r: RoleId): Option<Error> {
    if !MayUse(db, actor, Known(GroupsManage)) then Some(GuardError(db, actor))
    else if g !in db.groups then Some(NotFound)
    else if r in db.roles && !MayConfer(db, actor, RoleConfers(db.roles[r])) then Some(Forbidden)
    else None
  }

  function DropLink(db: Db, g: GroupId, r: RoleId): Db {
    db.(groupRoles := db.groupRoles - {(g, r)})
  }

  ghost function UnlinkRole(db: Db, actor: UserId, g: GroupId, r: RoleId): Outcome {
    Decide(db, UnlinkRoleRefusal(db, actor, g, r), DropLink(db, g, r))
  }

  // -- VM access ------------------------------------------------------------

  /** A live way to reach a VM: a direct row, or a row of a group the user is a live member of. */
  datatype Path = Direct | Via(group: GroupId)

  predicate LivePath(db: Db, u: UserId, v: VmId, path: Path) {
    match path
    case Direct => (u, v) in db.vmAccess && Live(db.vmAccess[(u, v)].expires, db.now)
    case Via(g) => IsMember(db, g, u) && (g, v) in db.groupVms && Live(db.groupVms[(g, v)].expires, db.now)
  }

  /** `hasAccess` */
  predicate HasAccess(db: Db, u: UserId, v: VmId) {
    || ((u, v) in db.vmAccess && Live(db.vmAccess[(u, v)].expires, db.now))
    || (exists k :: k in db.groupVms && k.1 == v && Live(db.groupVms[k].expires, db.now) && IsMember(db, k.0, u))
  }

  /** `hasAccessOrOwns` */
  predicate HasAccessOrOwns(db: Db, u: UserId, v: VmId) {
    HasAccess(db, u, v) || (v in db.vms && db.vms[v].owner == Some(u))
  }

  ghost function GrantVmRefusal(db: Db, actor: UserId, g: GroupId, v: VmId, expires: Expiry): Option<Error> {
    if !MayUse(db, actor, Known(GroupsManage)) then Some(GuardError(db, actor))
    else if !MayUse(db, actor, Known(VmEdit)) then Some(Forbidden)
    else if g !in db.groups then Some(NotFound)
    else if v !in db.vms then Some(NotFound)
    else if db.vms[v].privacy && !HasAccessOrOwns(db, actor, v) then Some(Forbidden)
    else if !ExpiryOk(db, expires) then Some(Validation)
    else None
  }

  function PutGroupVm(db: Db, g: GroupId, v: VmId, grant: VmGrant): Db {
    db.(groupVms := db.groupVms[(g, v) := grant])
  }

  ghost function GrantVm(db: Db, actor: UserId, g: GroupId, v: VmId, protocols: Option<set<Protocol>>, expires: Expiry): Outcome {
    Decide(db, GrantVmRefusal(db, actor, g, v, expires), PutGroupVm(db, g, v, VmGrant(protocols, expires)))
  }

  ghost function RevokeVmRefusal(db: Db, actor: UserId, g: GroupId): Option<Error> {
    if !MayUse(db, actor, Known(GroupsManage)) then Some(GuardError(db, actor))
    else if !MayUse(db, actor, Known(VmEdit)) then Some(Forbidden)
    else if g !in db.groups then Some(NotFound)
    else None
  }

  function DropGroupVm(db: Db, g: GroupId, v: VmId): Db {
    db.(groupVms := db.groupVms - {(g, v)})
  }

  ghost function RevokeVm(db: Db, actor: UserId, g: GroupId, v: VmId): Outcome {
    Decide(db, RevokeVmRefusal(db, actor, g), DropGroupVm(db, g, v))
  }

  // -- Accounts -------------------------------------------------------------

  /** `users.create`: the account and one permanent built-in role row. */
  function InsertUser(db: Db, newId: UserId, username: string, password: string, kind: Kind): Db {
    db.(users := db.users[newId := Account(username, true, false, password)],
        userRoles := db.userRoles[(newId, RoleIdOf(kind)) := None])
  }

  function BuiltInRole(db: Db, kind: Kind): set<Permission> {
    if RoleIdOf(kind) in db.roles then RoleConfers(db.roles[RoleIdOf(kind)]) else {}
  }

  ghost function CreateUserRefusal(db: Db, actor: UserId, newId: UserId, username: string, kind: Kind): Option<Error> {
    if !MayUse(db, actor, Known(UsersManage)) then Some(GuardError(db, actor))
    else if UsernameTaken(db, username) then Some(Conflict)
    else if RoleIdOf(kind) !in db.roles then Some(NotFound)
    else if !MayConfer(db, actor, BuiltInRole(db, kind)) then Some(Forbidden)
    else if newId in db.users then Some(Conflict)
    else None
  }

  ghost function CreateUser(db: Db, actor: UserId, newId: UserId, username: string, password: string, kind: Kind): Outcome {
    Decide(db, CreateUserRefusal(db, actor, newId, username, kind), InsertUser(db, newId, username, password, kind))
  }

  /** The initial administrator and the last active administrator are protected. */
  function ProtectedRefusal(db: Db, target: UserId): Option<Error> {
    if InitialAdmin(db, target) then Some(Validation)
    else if LiveAdmin(db, target) && !OtherActiveAdmin(db, target) then Some(Validation)
    else None
  }

  function DeactivationRefusal(db: Db, actor: UserId, target: UserId): Option<Error> {
    if target == actor then Some(Validation) else ProtectedRefusal(db, target)
  }

  function SetActive(db: Db, target: UserId, active: bool): Db {
    if target in db.users then db.(users := db.users[target := db.users[target].(active := active)]) else db
  }

  /** The `active` part of PUT /users/:id; `None` in the request leaves the flag alone. */
  function UpdateActive(db: Db, actor: UserId, target: UserId, active: Option<bool>): Outcome {
    match active
    case None => Outcome(db, Done)
    case Some(true) => Outcome(SetActive(db, target, true), Done)
    case Some(false) => Decide(db, DeactivationRefusal(db, actor, target), SetActive(db, target, false))
  }

  /** Self-demotion, conferral, then the checks of `setRolesGuarded`. */
  ghost function KindRefusal(db: Db, actor: UserId, target: UserId, kind: Kind): Option<Error> {
    if target == actor && kind != ADMIN then Some(Validation)
    else if RoleIdOf(kind) !in db.roles then Some(NotFound)
    else if !MayConfer(db, actor, BuiltInRole(db, kind)) then Some(Forbidden)
    else if InitialAdmin(db, target) then Some(Validation)
    else if LiveAdmin(db, target) && kind != ADMIN && !OtherActiveAdmin(db, target) then Some(Validation)
    else None
  }

  /** `setRoles`: drop every role row of the user, then one permanent row. */
  function ReplaceRoles(db: Db, target: UserId, kind: Kind): Db {
    db.(userRoles := WithoutLeft(db.userRoles, target)[(target, RoleIdOf(kind)) := None])
  }

  ghost function UpdateKind(db: Db, actor: UserId, target: UserId, kind: Option<Kind>): Outcome {
    if kind.None? then Outcome(db, Done)
    else Decide(db, KindRefusal(db, actor, target, kind.value), ReplaceRoles(db, target, kind.value))
  }

  function SetPassword(db: Db, target: UserId, password: Option<string>): Db {
    if password.None? || target !in db.users then db
    else db.(users := db.users[target := db.users[target].(password := password.value)])
  }

  ghost function UpdateUserRefusal(db: Db, actor: UserId, target: UserId, kind: Option<Kind>): Option<Error> {
    if !MayUse(db, actor, Known(UsersManage)) then Some(GuardError(db, actor))
    else if kind == Some(GUEST) then Some(Validation)
    else if target !in db.users then Some(NotFound)
    else if !CanAdminister(db, actor, target) then Some(Forbidden)
    else None
  }

  /** A refused role change leaves an accepted `active` change in place. */
  ghost function UpdateUser(db: Db, actor: UserId, target: UserId,
                            active: Option<bool>, kind: Option<Kind>, password: Option<string>): Outcome
  {
    var refusal := UpdateUserRefusal(db, actor, target, kind);
    if refusal.Some? then Refuse(db, refusal.value)
    else
      var first := UpdateActive(db, actor, target, active);
      if first.reply.Refused? then first
      else
        var second := UpdateKind(first.db, actor, target, kind);
        if second.reply.Refused? then second
        else Outcome(SetPassword(second.db, target, password), Done)
  }

  /** What is checked before the Guacamole account is removed. */
  ghost function EarlyDeletionRefusal(db: Db, actor: UserId, target: UserId): Option<Error> {
    if !MayUse(db, actor, Known(UsersManage)) then Some(GuardError(db, actor))
    else if target == actor then Some(Validation)
    else if target !in db.users then Some(NotFound)
    else if !CanAdminister(db, actor, target) then Some(Forbidden)
    else None
  }

  ghost function DeleteUserRefusal(db: Db, actor: UserId, target: UserId): Option<Error> {
    var early := EarlyDeletionRefusal(db, actor, target);
    if early.Some? then early else ProtectedRefusal(db, target)
  }

  function DropUser(db: Db, target: UserId): Db {
    db.(users := db.users - {target},
        userRoles := WithoutLeft(db.userRoles, target),
        userPerms := WithoutLeft(db.userPerms, target),
        members := WithoutRight(db.members, target),
        vmAccess := WithoutLeft(db.vmAccess, target))
  }

  ghost function DeleteUser(db: Db, actor: UserId, target: UserId): Outcome {
    Decide(db, DeleteUserRefusal(db, actor, target), DropUser(db, target))
  }

  /** Thirty days, in the clock's milliseconds. */
  const PENDING_MAX := 30 * 86400000

  ghost function ApproveRefusal(db: Db, actor: UserId, request: RequestId, kind: Kind): Option<Error> {
    if !MayUse(db, actor, Known(UsersManage)) then Some(GuardError(db, actor))
    else if kind == GUEST then Some(Validation)
    else if RoleIdOf(kind) !in db.roles then Some(NotFound)
    else if !MayConfer(db, actor, BuiltInRole(db, kind)) then Some(Forbidden)
    else if request !in db.pending then Some(NotFound)
    else None
  }

  function DropPending(db: Db, request: RequestId): Db {
    db.(pending := db.pending - {request})
  }

  /** The account a join request turns into. */
  function Admit(db: Db, request: RequestId, newId: UserId, kind: Kind): Db {
    if request !in db.pending then db
    else InsertUser(DropPending(db, request), newId, db.pending[request].username, db.pending[request].password, kind)
  }

  /** An expired request is dropped on the way to its refusal. */
  ghost function Approve(db: Db, actor: UserId, request: RequestId, newId: UserId, kind: Kind): Outcome {
    var refusal := ApproveRefusal(db, actor, request, kind);
    if refusal.Some? then Refuse(db, refusal.value)
    else if request in db.pending && db.pending[request].createdAt < db.now - PENDING_MAX then
      Refuse(DropPending(db, request), Conflict)
    else if request in db.pending && (UsernameTaken(db, db.pending[request].username) || newId in db.users) then
      Refuse(db, Conflict)
    else Outcome(Admit(db, request, newId, kind), Done)
  }

  // -- Requests and runs ----------------------------------------------------

  datatype Request =
    | ReqCreateRole(freshRole: RoleId, name: RoleName, perms: set<Permission>)
    | ReqEditRole(role: RoleId, newName: Option<RoleName>, newPerms: Option<set<Permission>>)
    | ReqDeleteRole(role: RoleId)
    | ReqAssignRole(target: UserId, role: RoleId, expires: Expiry)
    | ReqRemoveRole(target: UserId, role: RoleId)
    | ReqGrantPermission(target: UserId, permission: Permission, expires: Expiry)
    | ReqRevokePermission(target: UserId, permission: Permission)
    | ReqCreateGroup(freshGroup: GroupId, groupName: string)
    | ReqRenameGroup(group: GroupId, newGroupName: Option<string>)
    | ReqDeleteGroup(group: GroupId)
    | ReqAddMember(group: GroupId, target: UserId, expires: Expiry)
    | ReqRemoveMember(group: GroupId, target: UserId)
    | ReqLinkRole(group: GroupId, role: RoleId, expires: Expiry)
    | ReqUnlinkRole(group: GroupId, role: RoleId)
    | ReqGrantVm(group: GroupId, vm: VmId, protocols: Option<set<Protocol>>, expires: Expiry)
    | ReqRevokeVm(group: GroupId, vm: VmId)
    | ReqCreateUser(newId: UserId, username: string, secret: string, kind: Kind)
    | ReqUpdateUser(target: UserId, active: Option<bool>, newKind: Option<Kind>, password: Option<string>)
    | ReqDeleteUser(target: UserId)
    | ReqApprove(request: RequestId, newId: UserId, kind: Kind)

  ghost function Serve(db: Db, actor: UserId, req: Request): Outcome {
    match req
    case ReqCreateRole(newId, name, perms) => CreateRole(db, actor, newId, name, perms)
    case ReqEditRole(r, name, perms) => EditRole(db, actor, r, name, perms)
    case ReqDeleteRole(r) => DeleteRole(db, actor, r)
    case ReqAssignRole(u, r, e) => AssignRole(db, actor, u, r, e)
    case ReqRemoveRole(u, r) => RemoveRole(db, actor, u, r)
    case ReqGrantPermission(u, p, e) => GrantPermission(db, actor, u, p, e)
    case ReqRevokePermission(u, p) => RevokePermission(db, actor, u, p)
    case ReqCreateGroup(newId, name) => CreateGroup(db, actor, newId, name)
    case ReqRenameGroup(g, name) => RenameGroup(db, actor, g, name)
    case ReqDeleteGroup(g) => DeleteGroup(db, actor, g)
    case ReqAddMember(g, u, e) => AddMember(db, actor, g, u, e)
    case ReqRemoveMember(g, u) => RemoveMember(db, actor, g, u)
    case ReqLinkRole(g, r, e) => LinkRole(db, actor, g, r, e)
    case ReqUnlinkRole(g, r) => UnlinkRole(db, actor, g, r)
    case ReqGrantVm(g, v, ps, e) => GrantVm(db, actor, g, v, ps, e)
    case ReqRevokeVm(g, v) => RevokeVm(db, actor, g, v)
    case ReqCreateUser(newId, name, secret, kind) => CreateUser(db, actor, newId, name, secret, kind)
    case ReqUpdateUser(u, a, k, s) => UpdateUser(db, actor, u, a, k, s)
    case ReqDeleteUser(u) => DeleteUser(db, actor, u)
    case ReqApprove(q, newId, kind) => Approve(db, actor, q, newId, kind)
  }

  /**
   The hourly sweep prunes dead grant rows. Dead `user_roles` rows stay as history, and so do
   dead `vm_access` rows in `stuck`, whose Guacamole revocation failed.
   */
  function Sweep(db: Db, stuck: set<(UserId, VmId)>): Db {
    db.(userPerms := map k | k in db.userPerms && Live(db.userPerms[k], db.now) :: db.userPerms[k],
        members := map k | k in db.members && Live(db.members[k], db.now) :: db.members[k],
        groupRoles := map k | k in db.groupRoles && Live(db.groupRoles[k], db.now) :: db.groupRoles[k],
        groupVms := map k | k in db.groupVms && Live(db.groupVms[k].expires, db.now) :: db.groupVms[k],
        vmAccess := map k | k in db.vmAccess && (Live(db.vmAccess[k].expires, db.now) || k in stuck) :: db.vmAccess[k])
  }

  /** One thing that happens to the tables: an endpoint call, the clock, the sweep, or a stranger signing up. */
  datatype Event =
    | Call(actor: UserId, req: Request)
    | Tick(to: int)
    | Swept(stuck: set<(UserId, VmId)>)
    | SignUp(newId: UserId, username: string, password: string)
    | AskToJoin(request: RequestId, username: string, password: string)

  /** Self-service registration makes a guest account. */
  function Register(db: Db, newId: UserId, username: string, password: string): Db {
    if UsernameTaken(db, username) || newId in db.users then db
    else InsertUser(db, newId, username, password, GUEST)
  }

  /** A join request; a stale one for the same name makes room for it, a fresh one blocks it. */
  function Queued(db: Db, request: RequestId, username: string, password: string): map<RequestId, Registration> {
    var kept := map q | q in db.pending &&
      !(db.pending[q].username == username && db.pending[q].createdAt < db.now - PENDING_MAX) :: db.pending[q];
    if request in kept || exists q :: q in kept && kept[q].username == username then kept
    else kept[request := Registration(username, password, db.now)]
  }

  function Ask(db: Db, request: RequestId, username: string, password: string): Db {
    if UsernameTaken(db, username) then db
    else db.(pending := Queued(db, request, username, password))
  }

  /** The clock never runs backwards. */
  function Advance(db: Db, to: int): Db {
    if to >= db.now then db.(now := to) else db
  }

  ghost function Next(db: Db, e: Event): Db {
    match e
    case Call(actor, req) => Serve(db, actor, req).db
    case Tick(to) => Advance(db, to)
    case Swept(stuck) => Sweep(db, stuck)
    case SignUp(newId, username, password) => Register(db, newId, username, password)
    case AskToJoin(request, username, password) => Ask(db, request, username, password)
  }

  ghost function Run(db: Db, es: seq<Event>): Db
    decreases |es|
  {
    if es == [] then db else Run(Next(db, es[0]), es[1..])
  }
}
