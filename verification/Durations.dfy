/**
 How much a grant gives and how long it lasts, in terms of rows: resolution and access read off the
 tables, the compiled permission sets, and for every granting request what is live at every later
 moment, so that nothing is given for longer, or with more protocols, than was asked.
 */
module Durations {
  import opened Common
  import opened Iam
  import opened Guac
  import opened Agreement
  import opened Answers
  import opened Rows

  // -- Resolution, read off the rows -----------------------------------------------------------

  /** The codes ROLE_PERMISSIONS compiles in. */
  lemma CompiledSets()
    ensures forall c: Code :: Known(c) in BuiltInPermissions(ADMIN)
    ensures BuiltInPermissions(OPERATOR) ==
            {Known(VmList), Known(VmRead), Known(VmCreate), Known(VmManage), Known(VmEdit), Known(VmProvision), Known(CredRotate),
             Known(GuacLaunch), Known(GuacManage), Known(JobsRead), Known(JobsRetry), Known(JobsCancel), Known(HealthRead), Known(ProxmoxRead)}
    ensures BuiltInPermissions(USER) == {Known(VmRead), Known(GuacLaunch), Known(JobsRead), Known(HealthRead)}
    ensures BuiltInPermissions(GUEST) == {}
  {
  }

  predicate RoleGives(role: Role, p: Permission) {
    p in role.stored || (role.name.BuiltIn? && p in BuiltInPermissions(role.name.kind))
  }

  predicate ByRoleRow(db: Db, u: UserId, p: Permission, r: RoleId) {
    r in db.roles && (u, r) in db.userRoles && Unexpired(db.userRoles[(u, r)], db.now) && RoleGives(db.roles[r], p)
  }

  predicate ByGroupRows(db: Db, u: UserId, p: Permission, g: GroupId, r: RoleId) {
    && (g, u) in db.members && Unexpired(db.members[(g, u)], db.now)
    && (g, r) in db.groupRoles && Unexpired(db.groupRoles[(g, r)], db.now)
    && r in db.roles && p in db.roles[r].stored
  }

  /** A permission is held exactly by an unexpired role row, an unexpired direct grant, or an unexpired membership and link. */
  lemma HeldByRows(db: Db, u: UserId, p: Permission)
    ensures p in Effective(db, u) <==>
            || (exists r :: ByRoleRow(db, u, p, r))
            || ((u, p) in db.userPerms && Unexpired(db.userPerms[(u, p)], db.now))
            || (exists g, r :: ByGroupRows(db, u, p, g, r))
  {
    forall r ensures LiveSource(db, u, p, ByRole(r)) <==> ByRoleRow(db, u, p, r) {}
    forall g, r ensures LiveSource(db, u, p, ByGroup(g, r)) <==> ByGroupRows(db, u, p, g, r) {}
    assert LiveSource(db, u, p, ByGrant) <==> (u, p) in db.userPerms && Unexpired(db.userPerms[(u, p)], db.now);
    hide LiveSource, ByRoleRow, ByGroupRows;
    if src :| LiveSource(db, u, p, src) {
      match src
      case ByRole(r) => assert ByRoleRow(db, u, p, r);
      case ByGrant =>
      case ByGroup(g, r) => assert ByGroupRows(db, u, p, g, r);
    }
  }

  /** The row behind a path, and whether it and what it rests on are unexpired at `t`. */
  predicate OpenAt(db: Db, u: UserId, v: VmId, path: Path, t: int) {
    match path
    case Direct => (u, v) in db.vmAccess && Unexpired(db.vmAccess[(u, v)].expires, t)
    case Via(g) =>
      (g, u) in db.members && Unexpired(db.members[(g, u)], t) && (g, v) in db.groupVms && Unexpired(db.groupVms[(g, v)].expires, t)
  }

  function ListOf(db: Db, u: UserId, v: VmId, path: Path): Option<set<Protocol>>
    requires OpenAt(db, u, v, path, db.now)
  {
    match path
    case Direct => db.vmAccess[(u, v)].protocols
    case Via(g) => db.groupVms[(g, v)].protocols
  }

  lemma PathByRows(db: Db, u: UserId, v: VmId, path: Path, t: int)
    ensures LivePath(db.(now := t), u, v, path) <==> OpenAt(db, u, v, path, t)
    ensures LivePath(db, u, v, path) <==> OpenAt(db, u, v, path, db.now)
    ensures LivePath(db, u, v, path) ==> GrantOn(db, u, v, path).protocols == ListOf(db, u, v, path)
  {
  }

  /** An open path lists no protocols, or lists this one. */
  predicate Unlisted(db: Db, u: UserId, v: VmId, path: Path) {
    OpenAt(db, u, v, path, db.now) && ListOf(db, u, v, path) == None
  }

  predicate Lists(db: Db, u: UserId, v: VmId, path: Path, x: Protocol) {
    OpenAt(db, u, v, path, db.now) && ListOf(db, u, v, path).Some? && x in ListOf(db, u, v, path).value
  }

  /** The global permission of a protocol. */
  function GlobalCode(x: Protocol): Code {
    match x
    case Ssh => ProtocolSsh
    case Rdp => ProtocolRdp
    case Vnc => ProtocolVnc
  }

  /**
   What Guacamole should open: with an unlisted open path, the protocols held globally, or all of them
   if none is; otherwise exactly those some open path lists.
   */
  lemma AllowedByRows(db: Db, u: UserId, v: VmId, x: Protocol)
    ensures x in Allowed(db, u, v) <==>
            if exists path :: Unlisted(db, u, v, path)
            then Known(GlobalCode(x)) in Effective(db, u) || forall y: Protocol :: Known(GlobalCode(y)) !in Effective(db, u)
            else exists path :: Lists(db, u, v, path, x)
  {
    UnlistedIsUnscoped(db, u, v);
    ListsIsListed(db, u, v, x);
    forall y: Protocol ensures y in Globals(db, u) <==> Known(GlobalCode(y)) in Effective(db, u) {}
    hide Unlisted, Lists, GlobalCode, Effective, Holds, Unscoped, Listed, Globals;
    assert x in EVERY;
  }

  lemma UnlistedIsUnscoped(db: Db, u: UserId, v: VmId)
    ensures Unscoped(db, u, v) <==> exists path :: Unlisted(db, u, v, path)
  {
    forall path ensures LivePath(db, u, v, path) && GrantOn(db, u, v, path).protocols.None? <==> Unlisted(db, u, v, path) {
      PathByRows(db, u, v, path, db.now);
    }
    hide LivePath, GrantOn, Unlisted;
    if path :| LivePath(db, u, v, path) && GrantOn(db, u, v, path).protocols.None? { assert Unlisted(db, u, v, path); }
    if path :| Unlisted(db, u, v, path) { assert LivePath(db, u, v, path); }
  }

  lemma ListsIsListed(db: Db, u: UserId, v: VmId, x: Protocol)
    ensures Listed(db, u, v, x) <==> exists path :: Lists(db, u, v, path, x)
  {
    forall path
      ensures LivePath(db, u, v, path) && GrantOn(db, u, v, path).protocols.Some? && x in GrantOn(db, u, v, path).protocols.value
              <==> Lists(db, u, v, path, x)
    {
      PathByRows(db, u, v, path, db.now);
    }
    hide LivePath, GrantOn, Lists;
    if path :| LivePath(db, u, v, path) && GrantOn(db, u, v, path).protocols.Some? && x in GrantOn(db, u, v, path).protocols.value {
      assert Lists(db, u, v, path, x);
    }
    if path :| Lists(db, u, v, path, x) { assert LivePath(db, u, v, path); }
  }

  // -- What a VM grant gives ----------------------------------------------------------------------

  lemma SameRowsSamePath(a: Db, b: Db, u: UserId, w: VmId, h: GroupId, t: int)
    requires a.now == b.now && Get(a.members, (h, u)) == Get(b.members, (h, u)) && Get(a.groupVms, (h, w)) == Get(b.groupVms, (h, w))
    ensures LivePath(a.(now := t), u, w, Via(h)) <==> LivePath(b.(now := t), u, w, Via(h))
    ensures LivePath(b, u, w, Via(h)) ==> LivePath(a, u, w, Via(h)) && GrantOn(a, u, w, Via(h)) == GrantOn(b, u, w, Via(h))
  {
  }

  lemma SameRowsSameDirect(a: Db, b: Db, u: UserId, w: VmId, t: int)
    requires a.now == b.now && Get(a.vmAccess, (u, w)) == Get(b.vmAccess, (u, w))
    ensures LivePath(a.(now := t), u, w, Direct) <==> LivePath(b.(now := t), u, w, Direct)
  {
  }

  /** The way through a group whose VM row lists `ps` until `e`. */
  lemma RowOpensWay(db: Db, after: Db, u: UserId, v: VmId, g: GroupId, ps: Option<set<Protocol>>, e: Expiry, t: int)
    requires after.now == db.now && Get(after.members, (g, u)) == Get(db.members, (g, u)) && Unexpired(e, db.now)
    requires (g, v) in after.groupVms && after.groupVms[(g, v)].protocols == ps && after.groupVms[(g, v)].expires == e
    ensures LivePath(after.(now := t), u, v, Via(g)) <==>
            (e.Some? ==> t < e.value) && (g, u) in db.members && (db.members[(g, u)].Some? ==> t < db.members[(g, u)].value)
    ensures (g, u) in db.members && (db.members[(g, u)].Some? ==> db.now < db.members[(g, u)].value) ==>
            LivePath(after, u, v, Via(g)) && GrantOn(after, u, v, Via(g)).protocols == ps
  {
  }

  lemma VmGrantRows(db: Db, actor: UserId, g: GroupId, v: VmId, ps: Option<set<Protocol>>, e: Expiry, after: Db, u: UserId, h: GroupId, w: VmId)
    requires Serve(db, actor, ReqGrantVm(g, v, ps, e)) == Outcome(after, Done)
    ensures after.now == db.now && Get(after.members, (h, u)) == Get(db.members, (h, u)) && Unexpired(e, db.now)
    ensures Get(after.vmAccess, (u, w)) == Get(db.vmAccess, (u, w))
    ensures (h, w) != (g, v) ==> Get(after.groupVms, (h, w)) == Get(db.groupVms, (h, w))
    ensures (g, v) in after.groupVms && after.groupVms[(g, v)].protocols == ps && after.groupVms[(g, v)].expires == e
  {
    var req := ReqGrantVm(g, v, ps, e);
    hide Serve, RoleRow, UserRoleRow, UserPermRow, GroupRow, LinkRow, AccountRow, PendingRow, Lacks, Absent, Overreaches, Present;
    AcceptedRows(db, actor, req, u, 0, Known(VmList), g, v, 0);
    AcceptedRows(db, actor, req, u, 0, Known(VmList), h, w, 0);
    EveryAnswer(db, actor, req);
  }

  /**
   After an accepted VM grant an unexpired member reaches the VM through the group with exactly the protocols
   asked for, and at every moment the way is open exactly while both the date asked for and the membership last.
   */
  lemma VmGrantGives(db: Db, actor: UserId, g: GroupId, v: VmId, ps: Option<set<Protocol>>, e: Expiry, after: Db, u: UserId, t: int)
    requires Serve(db, actor, ReqGrantVm(g, v, ps, e)) == Outcome(after, Done)
    ensures LivePath(after.(now := t), u, v, Via(g)) <==>
            (e.Some? ==> t < e.value) && (g, u) in db.members && (db.members[(g, u)].Some? ==> t < db.members[(g, u)].value)
    ensures (g, u) in db.members && (db.members[(g, u)].Some? ==> db.now < db.members[(g, u)].value) ==>
            LivePath(after, u, v, Via(g)) && GrantOn(after, u, v, Via(g)).protocols == ps
  {
    hide Serve, LivePath, GrantOn, Get;
    VmGrantRows(db, actor, g, v, ps, e, after, u, g, v);
    RowOpensWay(db, after, u, v, g, ps, e, t);
  }

  /** Every other pair of group and VM, and every direct row, gives what it gave, for as long. */
  lemma VmGrantSparesOthers(db: Db, actor: UserId, g: GroupId, v: VmId, ps: Option<set<Protocol>>, e: Expiry, after: Db,
                            u: UserId, t: int, h: GroupId, w: VmId)
    requires Serve(db, actor, ReqGrantVm(g, v, ps, e)) == Outcome(after, Done)
    ensures LivePath(after.(now := t), u, w, Direct) <==> LivePath(db.(now := t), u, w, Direct)
    ensures (h, w) != (g, v) ==> (LivePath(after.(now := t), u, w, Via(h)) <==> LivePath(db.(now := t), u, w, Via(h)))
    ensures (h, w) != (g, v) && LivePath(db, u, w, Via(h)) ==>
            LivePath(after, u, w, Via(h)) && GrantOn(after, u, w, Via(h)) == GrantOn(db, u, w, Via(h))
  {
    hide Serve, LivePath, GrantOn, Get;
    VmGrantRows(db, actor, g, v, ps, e, after, u, h, w);
    if (h, w) != (g, v) { SameRowsSamePath(after, db, u, w, h, t); }
    SameRowsSameDirect(after, db, u, w, t);
  }

  /** A member whose only way is the granted one may then use exactly the protocols listed. */
  lemma VmGrantOpensOnly(db: Db, actor: UserId, g: GroupId, v: VmId, listed: set<Protocol>, e: Expiry, after: Db, u: UserId)
    requires Serve(db, actor, ReqGrantVm(g, v, Some(listed), e)) == Outcome(after, Done)
    requires (g, u) in db.members && (db.members[(g, u)].Some? ==> db.now < db.members[(g, u)].value)
    requires forall path :: LivePath(db, u, v, path) ==> path == Via(g)
    ensures Allowed(after, u, v) == listed
  {
    VmGrantGives(db, actor, g, v, Some(listed), e, after, u, db.now);
    forall path | LivePath(after, u, v, path) ensures path == Via(g) {
      match path
      case Direct => OtherWayWas(db, actor, g, v, listed, e, after, u, v, path);
      case Via(h) => if h != g { OtherWayWas(db, actor, g, v, listed, e, after, u, v, path); }
    }
    hide Serve, LivePath, GrantOn, Globals;
    assert !Unscoped(after, u, v);
    forall x: Protocol ensures Listed(after, u, v, x) <==> x in listed {}
  }

  lemma OtherWayWas(db: Db, actor: UserId, g: GroupId, v: VmId, listed: set<Protocol>, e: Expiry, after: Db, u: UserId, w: VmId, path: Path)
    requires Serve(db, actor, ReqGrantVm(g, v, Some(listed), e)) == Outcome(after, Done)
    requires path != Via(g) && LivePath(after, u, w, path)
    ensures LivePath(db, u, w, path)
  {
    hide Serve, LivePath;
    var h := if path.Via? then path.group else g + 1;
    VmGrantRows(db, actor, g, v, Some(listed), e, after, u, h, w);
    VmGrantSparesOthers(db, actor, g, v, Some(listed), e, after, u, db.now, h, w);
    assert after.(now := db.now) == after && db.(now := db.now) == db;
  }

  // -- What grants of permissions give -----------------------------------------------------------------

  /** After an accepted role assignment the role gives its permissions to the target exactly until the date asked for. */
  lemma RoleLasts(db: Db, actor: UserId, u: UserId, r: RoleId, e: Expiry, after: Db, p: Permission, t: int)
    requires Serve(db, actor, ReqAssignRole(u, r, e)) == Outcome(after, Done)
    ensures LiveSource(after.(now := t), u, p, ByRole(r)) <==> (e.Some? ==> t < e.value) && r in db.roles && RoleGives(db.roles[r], p)
  {
    hide Serve, GroupRow, MemberRow, GroupVmRow, LinkRow, VmAccessRow, AccountRow, PendingRow, UserPermRow;
    AcceptedRows(db, actor, ReqAssignRole(u, r, e), u, r, p, 0, 0, 0);
  }

  /** A direct grant gives that one permission exactly until its date. */
  lemma GrantLasts(db: Db, actor: UserId, u: UserId, p: Permission, e: Expiry, after: Db, t: int)
    requires Serve(db, actor, ReqGrantPermission(u, p, e)) == Outcome(after, Done)
    ensures LiveSource(after.(now := t), u, p, ByGrant) <==> (e.Some? ==> t < e.value)
  {
    hide Serve, GroupRow, MemberRow, GroupVmRow, LinkRow, VmAccessRow, AccountRow, PendingRow, UserRoleRow, RoleRow;
    AcceptedRows(db, actor, ReqGrantPermission(u, p, e), u, 0, p, 0, 0, 0);
  }

  /** A role link gives the role's stored permissions to a member exactly while both the date and the membership last. */
  lemma LinkLasts(db: Db, actor: UserId, g: GroupId, r: RoleId, e: Expiry, after: Db, u: UserId, p: Permission, t: int)
    requires Serve(db, actor, ReqLinkRole(g, r, e)) == Outcome(after, Done)
    ensures LiveSource(after.(now := t), u, p, ByGroup(g, r)) <==>
            && (e.Some? ==> t < e.value) && r in db.roles && p in db.roles[r].stored
            && (g, u) in db.members && (db.members[(g, u)].Some? ==> t < db.members[(g, u)].value)
  {
    hide Serve, Leaves, LiveSource;
    AcceptedRows(db, actor, ReqLinkRole(g, r, e), u, r, p, g, 0, 0);
    GroupRowsGive(db, ReqLinkRole(g, r, e), after, u, r, p, g, t);
  }

  /** What a group's rows give, whatever request left them. */
  lemma GroupRowsGive(db: Db, req: Request, after: Db, u: UserId, r: RoleId, p: Permission, g: GroupId, t: int)
    requires Leaves(db, req, after, u, r, p, g, 0, 0)
    ensures LiveSource(after.(now := t), u, p, ByGroup(g, r)) <==>
            && MemberRow(db, req, g, u).Some? && Unexpired(MemberRow(db, req, g, u).value, t)
            && LinkRow(db, req, g, r).Some? && Unexpired(LinkRow(db, req, g, r).value, t)
            && RoleRow(db, req, r).Some? && p in RoleRow(db, req, r).value.stored
  {
    hide GroupRow, GroupVmRow, VmAccessRow, AccountRow, PendingRow, UserRoleRow, UserPermRow, MemberRow, LinkRow, RoleRow;
  }

  /** A membership gives what the group's links give, exactly while both last. */
  lemma MembershipLasts(db: Db, actor: UserId, g: GroupId, u: UserId, e: Expiry, after: Db, r: RoleId, p: Permission, t: int)
    requires Serve(db, actor, ReqAddMember(g, u, e)) == Outcome(after, Done)
    ensures LiveSource(after.(now := t), u, p, ByGroup(g, r)) <==>
            && (e.Some? ==> t < e.value) && r in db.roles && p in db.roles[r].stored
            && (g, r) in db.groupRoles && (db.groupRoles[(g, r)].Some? ==> t < db.groupRoles[(g, r)].value)
  {
    hide Serve, Leaves, LiveSource;
    AcceptedRows(db, actor, ReqAddMember(g, u, e), u, r, p, g, 0, 0);
    GroupRowsGive(db, ReqAddMember(g, u, e), after, u, r, p, g, t);
  }

  /** It opens the way to the group's VMs, again exactly while both last. */
  lemma MembershipOpens(db: Db, actor: UserId, g: GroupId, u: UserId, e: Expiry, after: Db, v: VmId, t: int)
    requires Serve(db, actor, ReqAddMember(g, u, e)) == Outcome(after, Done)
    ensures LivePath(after.(now := t), u, v, Via(g)) <==>
            && (e.Some? ==> t < e.value)
            && (g, v) in db.groupVms && (db.groupVms[(g, v)].expires.Some? ==> t < db.groupVms[(g, v)].expires.value)
  {
    hide Serve, RoleRow, GroupRow, LinkRow, VmAccessRow, AccountRow, PendingRow, UserRoleRow, UserPermRow;
    AcceptedRows(db, actor, ReqAddMember(g, u, e), u, 0, Known(VmList), g, v, 0);
  }
}
