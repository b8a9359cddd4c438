/**
 What delegation can and cannot do, over single requests and over whole runs:
 permissions are only ever passed on by someone who holds them, and withdrawals never
 reach upward. What becomes of the initial administrator is in `Root`.
 */
module Delegation {
  import opened Common
  import opened Iam
  import opened Tables
  import opened Effects

  // -- Conferral: what a request puts into circulation ------------------------

  function Conferred(db: Db, req: Request): set<Permission> {
    match req
    case ReqCreateRole(_, _, perms) => perms
    case ReqEditRole(_, _, Some(perms)) => perms
    case ReqAssignRole(_, r, _) => if r in db.roles then RoleConfers(db.roles[r]) else {}
    case ReqGrantPermission(_, p, _) => {p}
    case ReqAddMember(g, _, _) => GroupConfers(db, g)
    case ReqLinkRole(_, r, _) => if r in db.roles then RoleConfers(db.roles[r]) else {}
    case ReqCreateUser(_, _, _, kind) => BuiltInPermissions(kind)
    case ReqUpdateUser(_, _, Some(kind), _) => BuiltInPermissions(kind)
    case ReqApprove(_, _, kind) => BuiltInPermissions(kind)
    case _ => {}
  }

  lemma UpdateUserConferral(db: Db, actor: UserId, t: UserId, active: Option<bool>, kind: Kind, password: Option<string>)
    requires WellFormed(db)
    requires UpdateUser(db, actor, t, active, Some(kind), password).reply.Done?
    ensures MayConfer(db, actor, BuiltInPermissions(kind))
  {
    var first := UpdateActive(db, actor, t, active).db;
    hide WellFormed, UpdateUserRefusal, InitialAdmin, LiveAdmin, OtherActiveAdmin, UpdateActive, ReplaceRoles, SetPassword,
      LiveSource, BuiltInPermissions, BuiltInRole;
    UpdateActiveKeepsWellFormed(db, actor, t, active);
    BuiltInRoleIs(first, kind);
    forall p | Holds(first, actor, p) ensures Holds(db, actor, p) {
      var src :| LiveSource(first, actor, p, src);
      UpdateActiveEffect(db, actor, t, active, actor, p, src);
    }
  }

  lemma NewAccountConferral(db: Db, actor: UserId, req: Request, kind: Kind)
    requires WellFormed(db) && Serve(db, actor, req).reply.Done?
    requires (req.ReqCreateUser? || req.ReqApprove?) && req.kind == kind
    ensures MayConfer(db, actor, BuiltInPermissions(kind))
  {
    hide WellFormed, MayUse, Holds, UsernameTaken, InsertUser, Admit, BuiltInPermissions, BuiltInRole;
    BuiltInRoleIs(db, kind);
  }

  /** No accepted request puts into circulation what its caller does not hold. */
  lemma ConferralChecked(db: Db, actor: UserId, req: Request)
    requires WellFormed(db) && Serve(db, actor, req).reply.Done?
    ensures MayConfer(db, actor, Conferred(db, req))
  {
    hide MayUse, CanAdminister, Holds, WellFormed, InCatalog, RoleNameTaken, ExpiryOk, BuiltInPermissions, RoleConfers, UpdateUser, CreateUser, Approve;
    match req
    case ReqCreateUser(_, _, _, kind) => NewAccountConferral(db, actor, req, kind);
    case ReqUpdateUser(t, active, Some(kind), password) => UpdateUserConferral(db, actor, t, active, kind, password);
    case ReqApprove(_, _, kind) => NewAccountConferral(db, actor, req, kind);
    case _ =>
  }

  lemma NewSourcesAreConferred(db: Db, req: Request, u: UserId, p: Permission, src: Source)
    requires WellFormed(db)
    requires SourceAfter(db, req, u, p, src) && !LiveSource(db, u, p, src)
    ensures p in Conferred(db, req)
  {
    if req.ReqAddMember? || req.ReqLinkRole? { assert RoleOk(src.role, db.roles[src.role]); }
  }

  /** Nobody gains, through any request, a permission that its caller lacks. */
  lemma GainsAreEarned(db: Db, actor: UserId, req: Request, u: UserId, p: Permission)
    requires WellFormed(db) && Holds(Serve(db, actor, req).db, u, p)
    ensures Holds(db, u, p) || Holds(db, actor, p)
  {
    hide Serve, WellFormed, SourceAfter, Conferred;
    var out := Serve(db, actor, req);
    var src :| LiveSource(out.db, u, p, src);
    RequestEffect(db, actor, req, u, p, src);
    if out.reply.Done? && !LiveSource(db, u, p, src) {
      NewSourcesAreConferred(db, req, u, p, src);
      ConferralChecked(db, actor, req);
    }
  }

  // -- Guards every request passes ----------------------------------------------

  /** The permission in front of each endpoint. */
  function Required(req: Request): Permission {
    match req
    case ReqCreateRole(_, _, _) => Known(RolesManage)
    case ReqEditRole(_, _, _) => Known(RolesManage)
    case ReqDeleteRole(_) => Known(RolesManage)
    case ReqCreateGroup(_, _) => Known(GroupsManage)
    case ReqRenameGroup(_, _) => Known(GroupsManage)
    case ReqDeleteGroup(_) => Known(GroupsManage)
    case ReqAddMember(_, _, _) => Known(GroupsManage)
    case ReqRemoveMember(_, _) => Known(GroupsManage)
    case ReqLinkRole(_, _, _) => Known(GroupsManage)
    case ReqUnlinkRole(_, _) => Known(GroupsManage)
    case ReqGrantVm(_, _, _, _) => Known(GroupsManage)
    case ReqRevokeVm(_, _) => Known(GroupsManage)
    case _ => Known(UsersManage)
  }

  /** Without it a request changes nothing at all, and the answer tells only whether the caller is signed in. */
  lemma NothingWithoutPermission(db: Db, actor: UserId, req: Request)
    requires !MayUse(db, actor, Required(req))
    ensures Serve(db, actor, req) == Refuse(db, GuardError(db, actor))
  {
    hide MayUse, CanAdminister, MayConfer, InitialAdmin, LiveAdmin, OtherActiveAdmin, UpdateActive, UpdateKind, SetPassword,
      PutRole, PatchRole, DropRole, PutUserRole, DropUserRole, PutUserPerm, DropUserPerm, PutGroup, PatchGroup, DropGroup,
      PutMember, DropMember, PutLink, DropLink, PutGroupVm, DropGroupVm, InsertUser, DropUser, Admit, DropPending;
  }

  /** The requests that change what one existing user holds or is. */
  predicate ActsOn(req: Request, u: UserId) {
    match req
    case ReqAssignRole(t, _, _) => u == t
    case ReqGrantPermission(t, _, _) => u == t
    case ReqAddMember(_, t, _) => u == t
    case _ => Targets(req, u)
  }

  /** Nobody operates upward: whoever acts on a user holds everything that user holds. */
  lemma NobodyActsUpward(db: Db, actor: UserId, req: Request, u: UserId, p: Permission)
    requires Serve(db, actor, req).reply.Done? && ActsOn(req, u) && Holds(db, u, p)
    ensures Holds(db, actor, p)
  {
    assert CanAdminister(db, actor, u) by {
      hide MayUse, CanAdminister, MayConfer, InitialAdmin, LiveAdmin, OtherActiveAdmin, UpdateActive, UpdateKind;
    }
  }

  lemma RoleRequestsSpareSystemRoles(db: Db, actor: UserId, req: Request, r: RoleId)
    requires r in db.roles && db.roles[r].isSystem && EditsRoles(req)
    ensures var after := Serve(db, actor, req).db; r in after.roles && after.roles[r] == db.roles[r]
  {
    hide MayUse, MayConfer, RoleNameTaken, InCatalog;
  }

  lemma SetActiveSparesRoles(db: Db, t: UserId, active: bool, password: Option<string>)
    ensures SetActive(db, t, active).roles == db.roles
    ensures SetPassword(db, t, password).roles == db.roles
  {
  }

  lemma UpdateActiveSparesRoles(db: Db, actor: UserId, t: UserId, active: Option<bool>)
    ensures UpdateActive(db, actor, t, active).db.roles == db.roles
  {
    hide DeactivationRefusal, SetActive;
    if active.Some? { SetActiveSparesRoles(db, t, active.value, None); }
  }

  lemma UpdateUserSparesRoles(db: Db, actor: UserId, req: Request)
    requires req.ReqUpdateUser?
    ensures Serve(db, actor, req).db.roles == db.roles
  {
    hide UpdateUserRefusal, UpdateActive, KindRefusal, SetPassword;
    var first := UpdateActive(db, actor, req.target, req.active).db;
    UpdateActiveSparesRoles(db, actor, req.target, req.active);
    SetActiveSparesRoles(UpdateKind(first, actor, req.target, req.newKind).db, req.target, true, req.password);
  }

  lemma NewAccountsSpareRoles(db: Db, actor: UserId, req: Request)
    requires req.ReqCreateUser? || req.ReqApprove?
    ensures Serve(db, actor, req).db.roles == db.roles
  {
    hide CreateUserRefusal, ApproveRefusal, UsernameTaken, Admit;
    if req.ReqApprove? { AdmitSparesRoles(db, req.request, req.newId, req.kind); }
  }

  lemma AdmitSparesRoles(db: Db, q: RequestId, newId: UserId, kind: Kind)
    ensures Admit(db, q, newId, kind).roles == db.roles
  {
  }

  predicate EditsRoles(req: Request) {
    req.ReqCreateRole? || req.ReqEditRole? || req.ReqDeleteRole?
  }

  lemma RowRequestsSpareRoles(db: Db, actor: UserId, req: Request)
    requires !EditsRoles(req) && !req.ReqUpdateUser? && !req.ReqCreateUser? && !req.ReqApprove?
    ensures Serve(db, actor, req).db.roles == db.roles
  {
    hide AssignRoleRefusal, RemoveRoleRefusal, GrantPermissionRefusal, RevokePermissionRefusal, CreateGroupRefusal,
      RenameGroupRefusal, GroupRefusal, AddMemberRefusal, RemoveMemberRefusal, LinkRoleRefusal, UnlinkRoleRefusal,
      GrantVmRefusal, RevokeVmRefusal, DeleteUserRefusal;
  }

  lemma EnvironmentSparesRoles(db: Db, e: Event)
    requires !e.Call?
    ensures Next(db, e).roles == db.roles
  {
    hide UsernameTaken, Queued, Serve;
    if e.SignUp? {
      assert Next(db, e) == db || Next(db, e) == InsertUser(db, e.newId, e.username, e.password, GUEST);
    }
  }

  /** A system role keeps its name, its protection and its stored permissions through every event. */
  lemma SystemRoleStays(db: Db, e: Event, r: RoleId)
    requires r in db.roles && db.roles[r].isSystem
    ensures r in Next(db, e).roles && Next(db, e).roles[r] == db.roles[r]
  {
    if !e.Call? {
      EnvironmentSparesRoles(db, e);
    } else {
      hide Serve;
      if EditsRoles(e.req) {
        RoleRequestsSpareSystemRoles(db, e.actor, e.req, r);
      } else if e.req.ReqUpdateUser? {
        UpdateUserSparesRoles(db, e.actor, e.req);
      } else if e.req.ReqCreateUser? || e.req.ReqApprove? {
        NewAccountsSpareRoles(db, e.actor, e.req);
      } else {
        RowRequestsSpareRoles(db, e.actor, e.req);
      }
    }
  }

  // -- Withdrawal -------------------------------------------------------------

  /** The three requests whose handlers check no withdrawal. */
  predicate WithdrawsUnchecked(req: Request) {
    req.ReqDeleteGroup? || req.ReqDeleteRole? || req.ReqEditRole?
  }

  /** The requests that act on one target user after `assertCanAdministerTarget`. */
  predicate Targets(req: Request, u: UserId) {
    match req
    case ReqRemoveRole(t, _) => u == t
    case ReqRevokePermission(t, _) => u == t
    case ReqRemoveMember(_, t) => u == t
    case ReqUpdateUser(t, _, _, _) => u == t
    case ReqDeleteUser(t) => u == t
    case _ => false
  }

  lemma TargetChecked(db: Db, actor: UserId, req: Request, u: UserId)
    requires Serve(db, actor, req).reply.Done? && Targets(req, u)
    ensures CanAdminister(db, actor, u)
  {
    hide MayUse, CanAdminister, MayConfer, InitialAdmin, LiveAdmin, OtherActiveAdmin, UpdateActive, UpdateKind;
  }

  lemma LostSourcesAreTargeted(db: Db, req: Request, u: UserId, p: Permission, src: Source)
    requires LiveSource(db, u, p, src) && !SourceAfter(db, req, u, p, src) && !WithdrawsUnchecked(req)
    ensures Targets(req, u) || (req.ReqUnlinkRole? && src == ByGroup(req.group, req.role))
  {
  }

  /** Whatever anyone loses by a checked request, its caller holds. */
  lemma WithdrawalsAreHeld(db: Db, actor: UserId, req: Request, u: UserId, p: Permission)
    requires WellFormed(db) && !WithdrawsUnchecked(req)
    requires Holds(db, u, p) && !Holds(Serve(db, actor, req).db, u, p)
    ensures Holds(db, actor, p)
  {
    hide Serve, SourceAfter;
    var out := Serve(db, actor, req);
    var src :| LiveSource(db, u, p, src);
    RequestEffect(db, actor, req, u, p, src);
    LostSourcesAreTargeted(db, req, u, p, src);
    if Targets(req, u) {
      TargetChecked(db, actor, req, u);
    } else {
      UnlinkChecked(db, actor, req.group, req.role);
      assert RoleOk(req.role, db.roles[req.role]);
    }
  }

  lemma UnlinkChecked(db: Db, actor: UserId, g: GroupId, r: RoleId)
    requires Serve(db, actor, ReqUnlinkRole(g, r)).reply.Done? && r in db.roles
    ensures MayConfer(db, actor, RoleConfers(db.roles[r]))
  {
    hide MayUse, Holds;
  }

  /**
   The unchecked withdrawals are real: deleting a group takes from everyone exactly what reached
   them through it alone, and the deletion asks for nothing but `groups.manage`.
   */
  lemma GroupDeletionTakes(db: Db, actor: UserId, g: GroupId, u: UserId, p: Permission)
    requires WellFormed(db) && MayUse(db, actor, Known(GroupsManage)) && g in db.groups && Holds(db, u, p)
    ensures !Holds(DeleteGroup(db, actor, g).db, u, p) <==> forall src :: LiveSource(db, u, p, src) ==> UsesGroup(src, g)
  {
    hide WellFormed, MayUse, DropGroup, LiveSource;
    var after := DeleteGroup(db, actor, g).db;
    assert after == DropGroup(db, g);
    forall src ensures LiveSource(after, u, p, src) <==> LiveSource(db, u, p, src) && !UsesGroup(src, g) {
      DeleteGroupEffect(db, g, u, p, src);
    }
  }

  // -- Coalitions over whole runs ---------------------------------------------

  /** Users that come under the control of whoever causes `e`: accounts it creates, approves, re-enables or resets. */
  ghost function Recruits(db: Db, e: Event): set<UserId> {
    match e
    case Call(actor, ReqCreateUser(newId, _, _, _)) => if Serve(db, actor, e.req).reply.Done? then {newId} else {}
    case Call(actor, ReqApprove(_, newId, _)) => if Serve(db, actor, e.req).reply.Done? then {newId} else {}
    case Call(actor, ReqUpdateUser(t, active, _, password)) =>
      if (active == Some(true) && CanAdminister(db, actor, t)) || (password.Some? && Serve(db, actor, e.req).reply.Done?)
      then {t} else {}
    case SignUp(newId, username, _) => if UsernameTaken(db, username) || newId in db.users then {} else {newId}
    case _ => {}
  }

  ghost function Grow(db: Db, coalition: set<UserId>, es: seq<Event>): set<UserId>
    decreases |es|
  {
    if es == [] then coalition else Grow(Next(db, es[0]), coalition + Recruits(db, es[0]), es[1..])
  }

  /** Every request of the run is made by a member of the coalition as it stands at that point. */
  ghost predicate RunBy(db: Db, coalition: set<UserId>, es: seq<Event>)
    decreases |es|
  {
    es == [] ||
    ((es[0].Call? ==> es[0].actor in coalition) &&
     RunBy(Next(db, es[0]), coalition + Recruits(db, es[0]), es[1..]))
  }

  ghost predicate InReach(db: Db, coalition: set<UserId>, p: Permission) {
    exists u :: u in coalition && Holds(db, u, p)
  }

  /** The permissions a coalition commands between them. */
  ghost function Reach(db: Db, coalition: set<UserId>): iset<Permission> {
    iset p | InReach(db, coalition, p)
  }

  lemma RegistrationAddsNothing(db: Db, newId: UserId, username: string, password: string, u: UserId, p: Permission, src: Source)
    requires WellFormed(db) && LiveSource(Register(db, newId, username, password), u, p, src)
    ensures LiveSource(db, u, p, src)
  {
    hide WellFormed, InsertUser, UsernameTaken;
    if newId !in db.users { InsertEffect(db, newId, username, password, GUEST, u, p, src); }
  }

  lemma AskAddsNothing(db: Db, request: RequestId, username: string, password: string, u: UserId, p: Permission, src: Source)
    requires LiveSource(Ask(db, request, username, password), u, p, src)
    ensures LiveSource(db, u, p, src)
  {
    hide Queued;
  }

  lemma SweepAddsNothing(db: Db, stuck: set<(UserId, VmId)>, u: UserId, p: Permission, src: Source)
    requires LiveSource(Sweep(db, stuck), u, p, src)
    ensures LiveSource(db, u, p, src)
  {
  }

  /** The clock, the sweep and strangers bring no source to anyone. */
  lemma EnvironmentAddsNothing(db: Db, e: Event, u: UserId, p: Permission, src: Source)
    requires WellFormed(db) && !e.Call? && LiveSource(Next(db, e), u, p, src)
    ensures LiveSource(db, u, p, src)
  {
    hide WellFormed, Register, Ask, Sweep, Serve;
    match e
    case SignUp(newId, username, password) => RegistrationAddsNothing(db, newId, username, password, u, p, src);
    case AskToJoin(request, username, password) => AskAddsNothing(db, request, username, password, u, p, src);
    case Swept(stuck) => SweepAddsNothing(db, stuck, u, p, src);
    case Tick(_) =>
  }

  lemma EventGains(db: Db, e: Event, u: UserId, p: Permission)
    requires WellFormed(db) && Holds(Next(db, e), u, p)
    ensures Holds(db, u, p) || (e.Call? && Holds(db, e.actor, p))
  {
    hide WellFormed, Serve, LiveSource, InsertUser, Sweep;
    if e.Call? {
      GainsAreEarned(db, e.actor, e.req, u, p);
    } else {
      var src :| LiveSource(Next(db, e), u, p, src);
      EnvironmentAddsNothing(db, e, u, p, src);
    }
  }

  /** A recruit brings nothing in: it is new, or the caller already holds everything it holds. */
  lemma RecruitsBringNothing(db: Db, e: Event, u: UserId, p: Permission)
    requires WellFormed(db) && u in Recruits(db, e) && Holds(db, u, p)
    ensures e.Call? && Holds(db, e.actor, p)
  {
    hide WellFormed;
    if e.Call? && e.req.ReqUpdateUser? {
      if Serve(db, e.actor, e.req).reply.Done? { TargetChecked(db, e.actor, e.req, u); }
    } else {
      NewAccountsAreNew(db, e, u);
      StrangersHoldNothing(db, u, p);
    }
  }

  lemma NewAccountsAreNew(db: Db, e: Event, u: UserId)
    requires u in Recruits(db, e) && !(e.Call? && e.req.ReqUpdateUser?)
    ensures u !in db.users
  {
    hide MayUse, MayConfer, CanAdminister;
  }

  lemma StrangersHoldNothing(db: Db, u: UserId, p: Permission)
    requires WellFormed(db) && u !in db.users
    ensures !Holds(db, u, p)
  {
  }

  lemma StepContained(db: Db, coalition: set<UserId>, e: Event)
    requires WellFormed(db) && (e.Call? ==> e.actor in coalition)
    ensures Reach(Next(db, e), coalition + Recruits(db, e)) <= Reach(db, coalition)
  {
    hide WellFormed, Next, Recruits;
    forall u, p | u in coalition + Recruits(db, e) && Holds(Next(db, e), u, p) ensures p in Reach(db, coalition) {
      EventGains(db, e, u, p);
      if u !in coalition && Holds(db, u, p) { RecruitsBringNothing(db, e, u, p); }
    }
  }

  /**
   Containment: however a coalition uses the endpoints, and whoever it recruits on
   the way, it never reaches a permission none of its first members held.
   */
  lemma {:induction false} CoalitionContained(db: Db, coalition: set<UserId>, es: seq<Event>)
    requires WellFormed(db) && RunBy(db, coalition, es)
    ensures Reach(Run(db, es), Grow(db, coalition, es)) <= Reach(db, coalition)
    decreases |es|
  {
    if es != [] {
      hide WellFormed, Next, Recruits, Reach;
      EventKeepsWellFormed(db, es[0]);
      StepContained(db, coalition, es[0]);
      CoalitionContained(Next(db, es[0]), coalition + Recruits(db, es[0]), es[1..]);
    }
  }

  lemma {:induction false} RunKeepsWellFormed(db: Db, es: seq<Event>)
    requires WellFormed(db)
    ensures WellFormed(Run(db, es))
    decreases |es|
  {
    hide WellFormed, Next;
    if es != [] {
      EventKeepsWellFormed(db, es[0]);
      RunKeepsWellFormed(Next(db, es[0]), es[1..]);
    }
  }

  /** Whoever acts, a permission nobody holds stays out of reach of everybody. */
  lemma {:induction false} NothingFromNothing(db: Db, es: seq<Event>, p: Permission)
    requires WellFormed(db) && forall u :: !Holds(db, u, p)
    ensures forall u :: !Holds(Run(db, es), u, p)
    decreases |es|
  {
    hide WellFormed, Next;
    if es != [] {
      EventKeepsWellFormed(db, es[0]);
      forall u ensures !Holds(Next(db, es[0]), u, p) {
        if Holds(Next(db, es[0]), u, p) { EventGains(db, es[0], u, p); }
      }
      NothingFromNothing(Next(db, es[0]), es[1..], p);
    }
  }
}
