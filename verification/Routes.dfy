/**
 The management endpoints as the handlers run them: guards in order, one write, then
 the Guacamole re-sync loops. Every method is held against its step in `Iam` and its
 index update in `Guac`.
 */
module Routes {
  import opened Common
  import opened Iam
  import opened Guac

  /** What the merge loop knows after looking at the paths in `seen`. */
  ghost predicate Merged(db: Db, u: UserId, v: VmId, seen: set<Path>, found: bool, protocols: Option<set<Protocol>>) {
    && (found <==> exists path :: path in seen && LivePath(db, u, v, path))
    && (protocols.None? ==> found ==> Unscoped(db, u, v))
    && (protocols.Some? ==> forall path :: path in seen && LivePath(db, u, v, path) ==>
          GrantOn(db, u, v, path).protocols.Some? && GrantOn(db, u, v, path).protocols.value <= protocols.value)
    && (protocols.Some? ==> forall x :: x in protocols.value ==> Listed(db, u, v, x))
  }

  lemma MergeNothing(db: Db, u: UserId, v: VmId)
    ensures Merged(db, u, v, {}, false, None)
  {
  }

  lemma MergeDead(db: Db, u: UserId, v: VmId, seen: set<Path>, found: bool, protocols: Option<set<Protocol>>, path: Path)
    requires Merged(db, u, v, seen, found, protocols) && !LivePath(db, u, v, path)
    ensures Merged(db, u, v, seen + {path}, found, protocols)
  {
    hide LivePath, GrantOn;
  }

  /** The first live grant is taken over; after that "every protocol" absorbs, and lists are united. */
  function Merge(found: bool, protocols: Option<set<Protocol>>, next: Option<set<Protocol>>): Option<set<Protocol>> {
    if !found then next
    else if protocols.None? || next.None? then None
    else Some(protocols.value + next.value)
  }

  lemma MergeLive(db: Db, u: UserId, v: VmId, seen: set<Path>, found: bool, protocols: Option<set<Protocol>>, path: Path)
    requires Merged(db, u, v, seen, found, protocols) && LivePath(db, u, v, path)
    ensures Merged(db, u, v, seen + {path}, true, Merge(found, protocols, GrantOn(db, u, v, path).protocols))
  {
    hide LivePath, GrantOn;
    assert path in seen + {path};
    var next := GrantOn(db, u, v, path).protocols;
    if next.Some? { forall x | x in next.value ensures Listed(db, u, v, x) {} }
  }

  lemma MergeRow(db: Db, u: UserId, v: VmId, seen: set<Path>, found: bool, protocols: Option<set<Protocol>>, path: Path)
    requires Merged(db, u, v, seen, found, protocols)
    ensures if LivePath(db, u, v, path)
            then Merged(db, u, v, seen + {path}, true, Merge(found, protocols, GrantOn(db, u, v, path).protocols))
            else Merged(db, u, v, seen + {path}, found, protocols)
  {
    hide Merged, Merge, LivePath, GrantOn;
    if LivePath(db, u, v, path) {
      MergeLive(db, u, v, seen, found, protocols, path);
    } else {
      MergeDead(db, u, v, seen, found, protocols, path);
    }
  }

  lemma GroupGrant(db: Db, u: UserId, v: VmId, g: GroupId)
    requires LivePath(db, u, v, Via(g))
    ensures (g, v) in db.groupVms && GrantOn(db, u, v, Via(g)) == db.groupVms[(g, v)]
  {
  }

  lemma MergeComplete(db: Db, u: UserId, v: VmId, seen: set<Path>, found: bool, protocols: Option<set<Protocol>>)
    requires Merged(db, u, v, seen, found, protocols)
    requires forall path :: LivePath(db, u, v, path) ==> path in seen
    ensures !found ==> Allowed(db, u, v) == {}
    ensures found && protocols.None? ==> Unscoped(db, u, v)
    ensures found && protocols.Some? ==> Allowed(db, u, v) == protocols.value
  {
    hide LivePath, GrantOn;
    if found && protocols.Some? {
      assert !Unscoped(db, u, v);
      forall x ensures x in protocols.value <==> Listed(db, u, v, x) {}
    }
  }

  lemma ResyncOne(index: Index, db: Db, done: set<Pair>, broken: Broken, k: Pair)
    ensures Resync(index, db, done, broken)[k := if k in broken then broken[k] else Allowed(db, k.0, k.1)]
         == Resync(index, db, done + {k}, broken)
  {
    hide Allowed;
  }

  lemma ResyncNothing(index: Index, db: Db, broken: Broken)
    ensures Resync(index, db, {}, broken) == index
  {
    hide Allowed;
  }

  function Elems(s: seq<int>): set<int> {
    set x | x in s
  }

  lemma ElemsSnoc(s: seq<int>, i: nat)
    requires i < |s|
    ensures Elems(s[..i + 1]) == Elems(s[..i]) + {s[i]}
  {
    assert s[..i + 1] == s[..i] + [s[i]];
  }

  lemma CrossNone(vs: seq<VmId>)
    ensures Cross(Elems([]), Elems(vs)) == {}
  {
  }

  lemma CrossNoVm(u: UserId)
    ensures Cross({u}, Elems([])) == {}
  {
  }

  lemma InCross(us: set<UserId>, vs: set<VmId>)
    ensures forall a, b :: (a, b) in Cross(us, vs) <==> a in us && b in vs
  {
  }

  lemma CrossUser(us: seq<UserId>, i: nat, vs: seq<VmId>)
    requires i < |us|
    ensures Cross(Elems(us[..i]), Elems(vs)) + Cross({us[i]}, Elems(vs)) == Cross(Elems(us[..i + 1]), Elems(vs))
  {
    ElemsSnoc(us, i);
    InCross(Elems(us[..i]), Elems(vs));
    InCross({us[i]}, Elems(vs));
    InCross(Elems(us[..i + 1]), Elems(vs));
    hide Elems, Cross;
  }

  lemma CrossVm(u: UserId, vs: seq<VmId>, i: nat)
    requires i < |vs|
    ensures Cross({u}, Elems(vs[..i])) + {(u, vs[i])} == Cross({u}, Elems(vs[..i + 1]))
  {
    ElemsSnoc(vs, i);
    var before, after := Elems(vs[..i]), Elems(vs[..i + 1]);
    hide Elems;
    forall a, b ensures (a, b) in Cross({u}, before) + {(u, vs[i])} <==> (a, b) in Cross({u}, after) {
      InCross({u}, before);
      InCross({u}, after);
    }
  }

  lemma EveryProtocol()
    ensures forall x: Protocol :: x in EVERY
  {
    forall x: Protocol ensures x in EVERY {
      match x case Ssh => case Rdp => case Vnc =>
    }
  }

  lemma ApprovalNeedsRequest(db: Db, actor: UserId, request: RequestId, kind: Kind)
    requires ApproveRefusal(db, actor, request, kind).None?
    ensures request in db.pending
  {
    hide MayUse, MayConfer;
  }

  lemma RenameNeedsGroup(db: Db, actor: UserId, g: GroupId, name: Option<string>)
    requires RenameGroupRefusal(db, actor, g, name).None?
    ensures g in db.groups
  {
    hide MayUse, GroupNameTaken;
  }

  lemma EditNeedsRole(db: Db, actor: UserId, r: RoleId, name: Option<RoleName>, perms: Option<set<Permission>>)
    requires EditRoleRefusal(db, actor, r, name, perms).None?
    ensures r in db.roles
  {
    hide MayUse, MayConfer, RoleNameTaken;
  }

  lemma ElemsOne(x: int)
    ensures Elems([x]) == {x}
  {
  }

  /** What an endpoint does to the index: an accepted request re-syncs its touched pairs, a refused one nothing. */
  ghost function Synced(index: Index, before: Db, after: Db, req: Request, reply: Reply, broken: Broken): Index {
    if reply.Done? then Resync(index, after, Touched(before, after, req), broken) else index
  }

  ghost function IndexAfter(index: Index, before: Db, actor: UserId, req: Request, broken: Broken, offline: bool): Index {
    var out := Serve(before, actor, req);
    if req.ReqDeleteUser? then
      if DropsGuacUser(before, actor, req.target) && !offline then WithoutUser(index, req.target) else index
    else if Touching(req) then Synced(index, before, out.db, req, out.reply, broken)
    else index
  }

  /** The requests whose handlers re-sync pairs. */
  predicate Touching(req: Request) {
    || req.ReqDeleteGroup? || req.ReqAddMember? || req.ReqRemoveMember? || req.ReqLinkRole? || req.ReqUnlinkRole?
    || req.ReqGrantVm? || req.ReqRevokeVm?
  }

  lemma DeletionIsApplied(before: Db, index: Index, actor: UserId, target: UserId, broken: Broken, offline: bool)
    ensures var after := Apply(State(before, index, {}, {}, {}), Step(Call(actor, ReqDeleteUser(target)), broken, offline));
            && Serve(before, actor, ReqDeleteUser(target)) == Iam.DeleteUser(before, actor, target)
            && after.db == Iam.DeleteUser(before, actor, target).db
            && after.index == IndexAfter(index, before, actor, ReqDeleteUser(target), broken, offline)
  {
    hide Iam.DeleteUser, DropsGuacUser, WithoutUser, Synced;
  }

  lemma RequestIsApplied(before: Db, index: Index, actor: UserId, req: Request, broken: Broken, offline: bool)
    requires !req.ReqDeleteUser?
    ensures var after := Apply(State(before, index, {}, {}, {}), Step(Call(actor, req), broken, offline));
            after.db == Serve(before, actor, req).db && after.index == IndexAfter(index, before, actor, req, broken, offline)
  {
    hide Serve, Resync;
    ResyncNothing(index, Serve(before, actor, req).db, broken);
  }

  class Backend {
    var now: int
    var users: map<UserId, Account>
    var roles: map<RoleId, Role>
    var userRoles: map<(UserId, RoleId), Expiry>
    var userPerms: map<(UserId, Permission), Expiry>
    var groups: map<GroupId, string>
    var members: map<(GroupId, UserId), Expiry>
    var groupRoles: map<(GroupId, RoleId), Expiry>
    var groupVms: map<(GroupId, VmId), VmGrant>
    var vmAccess: map<(UserId, VmId), VmGrant>
    var vms: map<VmId, Vm>
    var pending: map<RequestId, Registration>
    var index: Index

    /** The tables as one value. */
    function Tables(): Db
      reads this
    {
      Db(now, users, roles, userRoles, userPerms, groups, members, groupRoles, groupVms, vmAccess, vms, pending)
    }

    // -- Roles --------------------------------------------------------------

    method CreateRole(actor: UserId, newId: RoleId, name: RoleName, perms: set<Permission>) returns (reply: Reply)
      modifies `roles
      ensures Outcome(Tables(), reply) == Iam.CreateRole(old(Tables()), actor, newId, name, perms)
    {
      hide MayUse, MayConfer, Effective;
      if !Allows(Tables(), actor, Known(RolesManage)) { return Refused(GuardError(Tables(), actor)); }
      if !InCatalog(perms) { return Refused(Validation); }
      if RoleNameTaken(Tables(), name) { return Refused(Conflict); }
      if !NothingMissing(Tables(), actor, perms) { return Refused(Forbidden); }
      if newId in roles { return Refused(Conflict); }
      roles := roles[newId := Role(name, false, perms)];
      return Done;
    }

    method CheckEdit(actor: UserId, r: RoleId, name: Option<RoleName>, perms: Option<set<Permission>>) returns (refusal: Option<Error>)
      ensures refusal == EditRoleRefusal(Tables(), actor, r, name, perms)
    {
      hide MayUse, MayConfer, Effective, RoleNameTaken, InCatalog;
      if !Allows(Tables(), actor, Known(RolesManage)) { return Some(GuardError(Tables(), actor)); }
      if r !in roles { return Some(NotFound); }
      if roles[r].isSystem { return Some(Forbidden); }
      if perms.Some? && !InCatalog(perms.value) { return Some(Validation); }
      if name.Some? && name.value != roles[r].name && RoleNameTaken(Tables(), name.value) { return Some(Conflict); }
      if perms.Some? && !NothingMissing(Tables(), actor, perms.value) { return Some(Forbidden); }
      return None;
    }

    method EditRole(actor: UserId, r: RoleId, name: Option<RoleName>, perms: Option<set<Permission>>) returns (reply: Reply)
      modifies `roles
      ensures Outcome(Tables(), reply) == Iam.EditRole(old(Tables()), actor, r, name, perms)
    {
      var refusal := CheckEdit(actor, r, name, perms);
      if refusal.Some? { return Refused(refusal.value); }
      EditNeedsRole(Tables(), actor, r, name, perms);
      hide EditRoleRefusal;
      var role := roles[r];
      if name.Some? { role := role.(name := name.value); }
      if perms.Some? { role := role.(stored := perms.value); }
      assert role == Edited(roles[r], name, perms);
      roles := roles[r := role];
      return Done;
    }

    method DeleteRole(actor: UserId, r: RoleId) returns (reply: Reply)
      modifies `roles, `userRoles, `groupRoles
      ensures Outcome(Tables(), reply) == Iam.DeleteRole(old(Tables()), actor, r)
    {
      hide MayUse, Effective;
      if !Allows(Tables(), actor, Known(RolesManage)) { return Refused(GuardError(Tables(), actor)); }
      if r !in roles { return Refused(NotFound); }
      if roles[r].isSystem { return Refused(Forbidden); }
      roles := roles - {r};
      userRoles := WithoutRight(userRoles, r);
      groupRoles := WithoutRight(groupRoles, r);
      return Done;
    }

    // -- User roles and direct grants -----------------------------------------

    method AssignRole(actor: UserId, target: UserId, r: RoleId, expires: Expiry) returns (reply: Reply)
      modifies `userRoles
      ensures Outcome(Tables(), reply) == Iam.AssignRole(old(Tables()), actor, target, r, expires)
    {
      hide MayUse, MayConfer, CanAdminister, Effective, RoleConfers;
      if !Allows(Tables(), actor, Known(UsersManage)) { return Refused(GuardError(Tables(), actor)); }
      if target !in users { return Refused(NotFound); }
      if r !in roles { return Refused(NotFound); }
      if !NoOverreach(Tables(), actor, target) { return Refused(Forbidden); }
      if !NothingMissing(Tables(), actor, RoleConfers(roles[r])) { return Refused(Forbidden); }
      if !ExpiryOk(Tables(), expires) { return Refused(Validation); }
      userRoles := userRoles[(target, r) := expires];
      return Done;
    }

    method CheckRemoval(actor: UserId, target: UserId, r: RoleId) returns (refusal: Option<Error>)
      ensures refusal == RemoveRoleRefusal(Tables(), actor, target, r)
    {
      hide MayUse, CanAdminister, Effective, InitialAdmin, OtherActiveAdmin;
      if !Allows(Tables(), actor, Known(UsersManage)) { return Some(GuardError(Tables(), actor)); }
      if target !in users { return Some(NotFound); }
      if r !in roles { return Some(NotFound); }
      if !NoOverreach(Tables(), actor, target) { return Some(Forbidden); }
      if roles[r].name == BuiltIn(ADMIN) {
        if InitialAdmin(Tables(), target) { return Some(Validation); }
        if target == actor && !OtherActiveAdmin(Tables(), target) { return Some(Validation); }
      }
      return None;
    }

    method RemoveRole(actor: UserId, target: UserId, r: RoleId) returns (reply: Reply)
      modifies `userRoles
      ensures Outcome(Tables(), reply) == Iam.RemoveRole(old(Tables()), actor, target, r)
    {
      var refusal := CheckRemoval(actor, target, r);
      if refusal.Some? { return Refused(refusal.value); }
      hide RemoveRoleRefusal;
      userRoles := userRoles - {(target, r)};
      return Done;
    }

    method GrantPermission(actor: UserId, target: UserId, p: Permission, expires: Expiry) returns (reply: Reply)
      modifies `userPerms
      ensures Outcome(Tables(), reply) == Iam.GrantPermission(old(Tables()), actor, target, p, expires)
    {
      hide MayUse, MayConfer, CanAdminister, Effective;
      if !Allows(Tables(), actor, Known(UsersManage)) { return Refused(GuardError(Tables(), actor)); }
      if target !in users { return Refused(NotFound); }
      if !InCatalog({p}) { return Refused(Validation); }
      if !NoOverreach(Tables(), actor, target) { return Refused(Forbidden); }
      if !NothingMissing(Tables(), actor, {p}) { return Refused(Forbidden); }
      if !ExpiryOk(Tables(), expires) { return Refused(Validation); }
      userPerms := userPerms[(target, p) := expires];
      return Done;
    }

    method RevokePermission(actor: UserId, target: UserId, p: Permission) returns (reply: Reply)
      modifies `userPerms
      ensures Outcome(Tables(), reply) == Iam.RevokePermission(old(Tables()), actor, target, p)
    {
      hide MayUse, CanAdminister, Effective;
      if !Allows(Tables(), actor, Known(UsersManage)) { return Refused(GuardError(Tables(), actor)); }
      if target !in users { return Refused(NotFound); }
      if !NoOverreach(Tables(), actor, target) { return Refused(Forbidden); }
      userPerms := userPerms - {(target, p)};
      return Done;
    }

    // -- The Guacamole re-sync -------------------------------------------------

    /** The merge over the group rows, in the order they happen to come. */
    method MergedGroups(u: UserId, v: VmId) returns (found: bool, protocols: Option<set<Protocol>>, ghost seen: set<Path>)
      ensures Merged(Tables(), u, v, seen, found, protocols)
      ensures forall g :: (g, v) in groupVms ==> Via(g) in seen
    {
      var db := Tables();
      seen, found, protocols := {}, false, None;
      MergeNothing(db, u, v);
      hide Merged, Merge, LivePath, GrantOn;
      var rest := groupVms.Keys;
      while rest != {}
        invariant forall g :: (g, v) in groupVms ==> (g, v) in rest || Via(g) in seen
        invariant Merged(db, u, v, seen, found, protocols)
      {
        var k :| k in rest;
        rest := rest - {k};
        if k.1 == v {
          MergeRow(db, u, v, seen, found, protocols, Via(k.0));
          if LivePath(db, u, v, Via(k.0)) {
            GroupGrant(db, u, v, k.0);
            protocols := Merge(found, protocols, db.groupVms[(k.0, v)].protocols);
            found := true;
          }
          seen := seen + {Via(k.0)};
        }
      }
    }

    /** The merge of every live grant, the direct row last. */
    method MergedGrant(u: UserId, v: VmId) returns (found: bool, protocols: Option<set<Protocol>>)
      ensures !found ==> Allowed(Tables(), u, v) == {}
      ensures found && protocols.None? ==> Unscoped(Tables(), u, v)
      ensures found && protocols.Some? ==> Allowed(Tables(), u, v) == protocols.value
    {
      var db := Tables();
      ghost var seen;
      found, protocols, seen := MergedGroups(u, v);
      hide Merged, Merge, Allowed, Unscoped;
      MergeRow(db, u, v, seen, found, protocols, Direct);
      if (u, v) in vmAccess && Live(vmAccess[(u, v)].expires, now) {
        protocols := Merge(found, protocols, vmAccess[(u, v)].protocols);
        found := true;
      }
      seen := seen + {Direct};
      forall path | LivePath(db, u, v, path) ensures path in seen {}
      hide LivePath;
      MergeComplete(db, u, v, seen, found, protocols);
    }

    method AllowedProtocols(u: UserId, v: VmId) returns (protocols: set<Protocol>)
      ensures protocols == Allowed(Tables(), u, v)
    {
      var found, listed := MergedGrant(u, v);
      if !found { return {}; }
      if listed.Some? { return listed.value; }
      hide Effective, Unscoped, LivePath;
      var globals := set x: Protocol | ProtocolCode(x) in Effective(Tables(), u);
      assert globals == Globals(Tables(), u);
      return if globals == {} then EVERY else globals;
    }

    /** Revoke everything, then grant connection by connection; a failed attempt leaves what `broken` says. */
    method Reconcile(u: UserId, v: VmId, broken: Broken)
      modifies `index
      ensures index == old(index)[(u, v) := if (u, v) in broken then broken[(u, v)] else Allowed(Tables(), u, v)]
    {
      if (u, v) in broken {
        index := index[(u, v) := broken[(u, v)]];
        return;
      }
      var protocols := AllowedProtocols(u, v);
      hide Allowed;
      EveryProtocol();
      index := index[(u, v) := {}];
      var records := EVERY;
      while records != {}
        invariant (u, v) in index && index == old(index)[(u, v) := index[(u, v)]]
        invariant forall x :: x in index[(u, v)] <==> x in protocols && x !in records
      {
        var x :| x in records;
        records := records - {x};
        if x in protocols { index := index[(u, v) := index[(u, v)] + {x}]; }
      }
      assert index[(u, v)] == protocols;
    }

    /** `groupMemberIds`: the unexpired members. */
    method GroupMemberIds(g: GroupId) returns (ids: seq<UserId>)
      ensures Elems(ids) == LiveMembers(Tables(), g)
    {
      ids := [];
      var rest := members.Keys;
      while rest != {}
        invariant rest <= members.Keys
        invariant forall u :: u in ids <==> (g, u) in members && (g, u) !in rest && Live(members[(g, u)], now)
      {
        var k :| k in rest;
        rest := rest - {k};
        if k.0 == g && Live(members[k], now) { ids := ids + [k.1]; }
      }
      forall u ensures u in ids <==> u in LiveMembers(Tables(), g) {
        if u in ids { assert (g, u) in members; }
      }
    }

    /** `groupVmIds`: every VM row, expired ones too. */
    method GroupVmIds(g: GroupId) returns (ids: seq<VmId>)
      ensures Elems(ids) == VmIds(Tables(), g)
    {
      ids := [];
      var rest := groupVms.Keys;
      while rest != {}
        invariant rest <= groupVms.Keys
        invariant forall v :: v in ids <==> (g, v) in groupVms && (g, v) !in rest
      {
        var k :| k in rest;
        rest := rest - {k};
        if k.0 == g { ids := ids + [k.1]; }
      }
      forall v ensures v in ids <==> v in VmIds(Tables(), g) {
        if v in ids { assert (g, v) in groupVms; }
      }
    }

    /** For every member, for every VM. */
    method ReconcileAll(us: seq<UserId>, vs: seq<VmId>, broken: Broken)
      modifies `index
      ensures index == Resync(old(index), Tables(), Cross(Elems(us), Elems(vs)), broken)
    {
      ghost var db := Tables();
      CrossNone(vs);
      ResyncNothing(index, db, broken);
      hide Resync, Allowed, Cross, Elems;
      for i := 0 to |us|
        invariant Tables() == db
        invariant index == Resync(old(index), db, Cross(Elems(us[..i]), Elems(vs)), broken)
      {
        ReconcileUser(us[i], vs, broken, old(index), Cross(Elems(us[..i]), Elems(vs)));
        CrossUser(us, i, vs);
      }
      assert us[..|us|] == us;
    }

    /** The inner loop: one member's VMs, on top of the pairs already `done` since `start`. */
    method ReconcileUser(u: UserId, vs: seq<VmId>, broken: Broken, ghost start: Index, ghost done: set<Pair>)
      requires index == Resync(start, Tables(), done, broken)
      modifies `index
      ensures index == Resync(start, Tables(), done + Cross({u}, Elems(vs)), broken)
    {
      ghost var db := Tables();
      CrossNoVm(u);
      assert done + Cross({u}, Elems(vs[..0])) == done;
      hide Resync, Allowed, Cross, Elems;
      for i := 0 to |vs|
        invariant Tables() == db
        invariant index == Resync(start, db, done + Cross({u}, Elems(vs[..i])), broken)
      {
        Reconcile(u, vs[i], broken);
        ResyncOne(start, db, done + Cross({u}, Elems(vs[..i])), broken, (u, vs[i]));
        CrossVm(u, vs, i);
        assert done + Cross({u}, Elems(vs[..i])) + {(u, vs[i])} == done + Cross({u}, Elems(vs[..i + 1]));
      }
      assert vs[..|vs|] == vs;
    }

    // -- Groups ---------------------------------------------------------------

    method CreateGroup(actor: UserId, newId: GroupId, name: string) returns (reply: Reply)
      modifies `groups
      ensures Outcome(Tables(), reply) == Iam.CreateGroup(old(Tables()), actor, newId, name)
    {
      hide MayUse, Effective;
      if !Allows(Tables(), actor, Known(GroupsManage)) { return Refused(GuardError(Tables(), actor)); }
      if GroupNameTaken(Tables(), name) { return Refused(Conflict); }
      if newId in groups { return Refused(Conflict); }
      groups := groups[newId := name];
      return Done;
    }

    method CheckRenameGroup(actor: UserId, g: GroupId, name: Option<string>) returns (refusal: Option<Error>)
      ensures refusal == RenameGroupRefusal(Tables(), actor, g, name)
    {
      hide MayUse, Effective, GroupNameTaken;
      if !Allows(Tables(), actor, Known(GroupsManage)) { return Some(GuardError(Tables(), actor)); }
      if g !in groups { return Some(NotFound); }
      if name.Some? && name.value != groups[g] && GroupNameTaken(Tables(), name.value) { return Some(Conflict); }
      return None;
    }

    method RenameGroup(actor: UserId, g: GroupId, name: Option<string>) returns (reply: Reply)
      modifies `groups
      ensures Outcome(Tables(), reply) == Iam.RenameGroup(old(Tables()), actor, g, name)
    {
      hide RenameGroupRefusal;
      var refusal := CheckRenameGroup(actor, g, name);
      if refusal.Some? { return Refused(refusal.value); }
      RenameNeedsGroup(Tables(), actor, g, name);
      if name.Some? { groups := groups[g := name.value]; }
      return Done;
    }

    method CheckDeleteGroup(actor: UserId, g: GroupId) returns (refusal: Option<Error>)
      ensures refusal == GroupRefusal(Tables(), actor, g)
    {
      hide MayUse, Effective;
      if !Allows(Tables(), actor, Known(GroupsManage)) { return Some(GuardError(Tables(), actor)); }
      if g !in groups { return Some(NotFound); }
      return None;
    }

    method CascadeGroup(g: GroupId)
      modifies `groups, `members, `groupRoles, `groupVms
      ensures Tables() == DropGroup(old(Tables()), g)
    {
      groups := groups - {g};
      members := WithoutLeft(members, g);
      groupRoles := WithoutLeft(groupRoles, g);
      groupVms := WithoutLeft(groupVms, g);
    }

    /** Members and VMs are read before the rows cascade away. */
    method DeleteGroup(actor: UserId, g: GroupId, broken: Broken) returns (reply: Reply)
      modifies `groups, `members, `groupRoles, `groupVms, `index
      ensures Outcome(Tables(), reply) == Iam.DeleteGroup(old(Tables()), actor, g)
      ensures index == Synced(old(index), old(Tables()), Tables(), ReqDeleteGroup(g), reply, broken)
    {
      hide GroupRefusal, Resync, Elems, Cross, LiveMembers, VmIds, DropGroup;
      var refusal := CheckDeleteGroup(actor, g);
      if refusal.Some? { return Refused(refusal.value); }
      var us := GroupMemberIds(g);
      var vs := GroupVmIds(g);
      CascadeGroup(g);
      ReconcileAll(us, vs, broken);
      return Done;
    }

    method CheckAddMember(actor: UserId, g: GroupId, target: UserId, expires: Expiry) returns (refusal: Option<Error>)
      ensures refusal == AddMemberRefusal(Tables(), actor, g, target, expires)
    {
      hide MayUse, MayConfer, CanAdminister, Effective, GroupConfers;
      if !Allows(Tables(), actor, Known(GroupsManage)) { return Some(GuardError(Tables(), actor)); }
      if g !in groups { return Some(NotFound); }
      if target !in users { return Some(NotFound); }
      if !NoOverreach(Tables(), actor, target) { return Some(Forbidden); }
      if !NothingMissing(Tables(), actor, GroupConfers(Tables(), g)) { return Some(Forbidden); }
      if !ExpiryOk(Tables(), expires) { return Some(Validation); }
      return None;
    }

    method AddMember(actor: UserId, g: GroupId, target: UserId, expires: Expiry, broken: Broken) returns (reply: Reply)
      modifies `members, `index
      ensures Outcome(Tables(), reply) == Iam.AddMember(old(Tables()), actor, g, target, expires)
      ensures index == Synced(old(index), old(Tables()), Tables(), ReqAddMember(g, target, expires), reply, broken)
    {
      hide AddMemberRefusal, Resync, Elems, Cross, VmIds;
      var refusal := CheckAddMember(actor, g, target, expires);
      if refusal.Some? { return Refused(refusal.value); }
      members := members[(g, target) := expires];
      ReconcileMember(g, target, broken);
      return Done;
    }

    method CheckRemoveMember(actor: UserId, g: GroupId, target: UserId) returns (refusal: Option<Error>)
      ensures refusal == RemoveMemberRefusal(Tables(), actor, g, target)
    {
      hide MayUse, MayConfer, CanAdminister, Effective, GroupConfers;
      if !Allows(Tables(), actor, Known(GroupsManage)) { return Some(GuardError(Tables(), actor)); }
      if g !in groups { return Some(NotFound); }
      if !NoOverreach(Tables(), actor, target) { return Some(Forbidden); }
      if !NothingMissing(Tables(), actor, GroupConfers(Tables(), g)) { return Some(Forbidden); }
      return None;
    }

    method RemoveMember(actor: UserId, g: GroupId, target: UserId, broken: Broken) returns (reply: Reply)
      modifies `members, `index
      ensures Outcome(Tables(), reply) == Iam.RemoveMember(old(Tables()), actor, g, target)
      ensures index == Synced(old(index), old(Tables()), Tables(), ReqRemoveMember(g, target), reply, broken)
    {
      hide RemoveMemberRefusal, Resync, Elems, Cross, VmIds;
      var refusal := CheckRemoveMember(actor, g, target);
      if refusal.Some? { return Refused(refusal.value); }
      members := members - {(g, target)};
      ReconcileMember(g, target, broken);
      return Done;
    }

    method CheckLinkRole(actor: UserId, g: GroupId, r: RoleId, expires: Expiry) returns (refusal: Option<Error>)
      ensures refusal == LinkRoleRefusal(Tables(), actor, g, r, expires)
    {
      hide MayUse, MayConfer, Effective, RoleConfers;
      if !Allows(Tables(), actor, Known(GroupsManage)) { return Some(GuardError(Tables(), actor)); }
      if g !in groups { return Some(NotFound); }
      if r !in roles { return Some(NotFound); }
      if !NothingMissing(Tables(), actor, RoleConfers(roles[r])) { return Some(Forbidden); }
      if !ExpiryOk(Tables(), expires) { return Some(Validation); }
      return None;
    }

    method LinkRole(actor: UserId, g: GroupId, r: RoleId, expires: Expiry, broken: Broken) returns (reply: Reply)
      modifies `groupRoles, `index
      ensures Outcome(Tables(), reply) == Iam.LinkRole(old(Tables()), actor, g, r, expires)
      ensures index == Synced(old(index), old(Tables()), Tables(), ReqLinkRole(g, r, expires), reply, broken)
    {
      hide LinkRoleRefusal, Resync, Elems, Cross, LiveMembers, VmIds;
      var refusal := CheckLinkRole(actor, g, r, expires);
      if refusal.Some? { return Refused(refusal.value); }
      groupRoles := groupRoles[(g, r) := expires];
      ReconcileGroup(g, broken);
      return Done;
    }

    method CheckUnlinkRole(actor: UserId, g: GroupId, r: RoleId) returns (refusal: Option<Error>)
      ensures refusal == UnlinkRoleRefusal(Tables(), actor, g, r)
    {
      hide MayUse, MayConfer, Effective, RoleConfers;
      if !Allows(Tables(), actor, Known(GroupsManage)) { return Some(GuardError(Tables(), actor)); }
      if g !in groups { return Some(NotFound); }
      if r in roles && !NothingMissing(Tables(), actor, RoleConfers(roles[r])) { return Some(Forbidden); }
      return None;
    }

    method UnlinkRole(actor: UserId, g: GroupId, r: RoleId, broken: Broken) returns (reply: Reply)
      modifies `groupRoles, `index
      ensures Outcome(Tables(), reply) == Iam.UnlinkRole(old(Tables()), actor, g, r)
      ensures index == Synced(old(index), old(Tables()), Tables(), ReqUnlinkRole(g, r), reply, broken)
    {
      hide UnlinkRoleRefusal, Resync, Elems, Cross, LiveMembers, VmIds;
      var refusal := CheckUnlinkRole(actor, g, r);
      if refusal.Some? { return Refused(refusal.value); }
      groupRoles := groupRoles - {(g, r)};
      ReconcileGroup(g, broken);
      return Done;
    }

    method CheckGrantVm(actor: UserId, g: GroupId, v: VmId, expires: Expiry) returns (refusal: Option<Error>)
      ensures refusal == GrantVmRefusal(Tables(), actor, g, v, expires)
    {
      hide MayUse, Effective, HasAccessOrOwns;
      if !Allows(Tables(), actor, Known(GroupsManage)) { return Some(GuardError(Tables(), actor)); }
      if !Allows(Tables(), actor, Known(VmEdit)) { return Some(Forbidden); }
      if g !in groups { return Some(NotFound); }
      if v !in vms { return Some(NotFound); }
      if vms[v].privacy && !HasAccessOrOwns(Tables(), actor, v) { return Some(Forbidden); }
      if !ExpiryOk(Tables(), expires) { return Some(Validation); }
      return None;
    }

    method GrantVm(actor: UserId, g: GroupId, v: VmId, protocols: Option<set<Protocol>>, expires: Expiry, broken: Broken)
      returns (reply: Reply)
      modifies `groupVms, `index
      ensures Outcome(Tables(), reply) == Iam.GrantVm(old(Tables()), actor, g, v, protocols, expires)
      ensures index == Synced(old(index), old(Tables()), Tables(), ReqGrantVm(g, v, protocols, expires), reply, broken)
    {
      hide GrantVmRefusal, Resync, Elems, Cross, LiveMembers;
      var refusal := CheckGrantVm(actor, g, v, expires);
      if refusal.Some? { return Refused(refusal.value); }
      groupVms := groupVms[(g, v) := VmGrant(protocols, expires)];
      ReconcileVm(g, v, broken);
      return Done;
    }

    method CheckRevokeVm(actor: UserId, g: GroupId) returns (refusal: Option<Error>)
      ensures refusal == RevokeVmRefusal(Tables(), actor, g)
    {
      hide MayUse, Effective;
      if !Allows(Tables(), actor, Known(GroupsManage)) { return Some(GuardError(Tables(), actor)); }
      if !Allows(Tables(), actor, Known(VmEdit)) { return Some(Forbidden); }
      if g !in groups { return Some(NotFound); }
      return None;
    }

    method RevokeVm(actor: UserId, g: GroupId, v: VmId, broken: Broken) returns (reply: Reply)
      modifies `groupVms, `index
      ensures Outcome(Tables(), reply) == Iam.RevokeVm(old(Tables()), actor, g, v)
      ensures index == Synced(old(index), old(Tables()), Tables(), ReqRevokeVm(g, v), reply, broken)
    {
      hide RevokeVmRefusal, Resync, Elems, Cross, LiveMembers;
      var refusal := CheckRevokeVm(actor, g);
      if refusal.Some? { return Refused(refusal.value); }
      groupVms := groupVms - {(g, v)};
      ReconcileVm(g, v, broken);
      return Done;
    }

    method ReconcileGroup(g: GroupId, broken: Broken)
      modifies `index
      ensures index == Resync(old(index), Tables(), Cross(LiveMembers(Tables(), g), VmIds(Tables(), g)), broken)
    {
      hide Resync, Elems, Cross, LiveMembers, VmIds;
      var us := GroupMemberIds(g);
      var vs := GroupVmIds(g);
      ReconcileAll(us, vs, broken);
    }

    method ReconcileMember(g: GroupId, u: UserId, broken: Broken)
      modifies `index
      ensures index == Resync(old(index), Tables(), Cross({u}, VmIds(Tables(), g)), broken)
    {
      var vs := GroupVmIds(g);
      ElemsOne(u);
      hide Resync, Elems, Cross, VmIds;
      ReconcileAll([u], vs, broken);
    }

    method ReconcileVm(g: GroupId, v: VmId, broken: Broken)
      modifies `index
      ensures index == Resync(old(index), Tables(), Cross(LiveMembers(Tables(), g), {v}), broken)
    {
      var us := GroupMemberIds(g);
      ElemsOne(v);
      hide Resync, Elems, Cross, LiveMembers;
      ReconcileAll(us, [v], broken);
    }

    // -- Accounts ---------------------------------------------------------------

    method Insert(newId: UserId, username: string, password: string, kind: Kind)
      modifies `users, `userRoles
      ensures Tables() == InsertUser(old(Tables()), newId, username, password, kind)
    {
      users := users[newId := Account(username, true, false, password)];
      userRoles := userRoles[(newId, RoleIdOf(kind)) := None];
    }

    method CreateUser(actor: UserId, newId: UserId, username: string, password: string, kind: Kind) returns (reply: Reply)
      modifies `users, `userRoles
      ensures Outcome(Tables(), reply) == Iam.CreateUser(old(Tables()), actor, newId, username, password, kind)
    {
      hide MayUse, MayConfer, Effective, InsertUser, BuiltInRole;
      if !Allows(Tables(), actor, Known(UsersManage)) { return Refused(GuardError(Tables(), actor)); }
      if UsernameTaken(Tables(), username) { return Refused(Conflict); }
      if RoleIdOf(kind) !in roles { return Refused(NotFound); }
      if !NothingMissing(Tables(), actor, BuiltInRole(Tables(), kind)) { return Refused(Forbidden); }
      if newId in users { return Refused(Conflict); }
      Insert(newId, username, password, kind);
      return Done;
    }

    method ChangeActive(actor: UserId, target: UserId, active: Option<bool>) returns (reply: Reply)
      requires target in users
      modifies `users
      ensures Outcome(Tables(), reply) == UpdateActive(old(Tables()), actor, target, active) && target in users
    {
      hide ProtectedRefusal;
      if active == Some(false) {
        if target == actor { return Refused(Validation); }
        var refusal := ProtectedRefusal(Tables(), target);
        if refusal.Some? { return Refused(refusal.value); }
        users := users[target := users[target].(active := false)];
      } else if active == Some(true) {
        users := users[target := users[target].(active := true)];
      }
      return Done;
    }

    method ChangeKind(actor: UserId, target: UserId, kind: Option<Kind>) returns (reply: Reply)
      requires target in users
      modifies `userRoles
      ensures Outcome(Tables(), reply) == UpdateKind(old(Tables()), actor, target, kind)
    {
      hide MayConfer, Effective, BuiltInRole, InitialAdmin, LiveAdmin, OtherActiveAdmin;
      if kind.None? { return Done; }
      if target == actor && kind.value != ADMIN { return Refused(Validation); }
      if RoleIdOf(kind.value) !in roles { return Refused(NotFound); }
      if !NothingMissing(Tables(), actor, BuiltInRole(Tables(), kind.value)) { return Refused(Forbidden); }
      if InitialAdmin(Tables(), target) { return Refused(Validation); }
      if LiveAdmin(Tables(), target) && kind.value != ADMIN && !OtherActiveAdmin(Tables(), target) { return Refused(Validation); }
      userRoles := WithoutLeft(userRoles, target);
      userRoles := userRoles[(target, RoleIdOf(kind.value)) := None];
      return Done;
    }

    /** The three parts in order; a refusal in the second keeps the first. */
    method UpdateUser(actor: UserId, target: UserId, active: Option<bool>, kind: Option<Kind>, password: Option<string>)
      returns (reply: Reply)
      modifies `users, `userRoles
      ensures Outcome(Tables(), reply) == Iam.UpdateUser(old(Tables()), actor, target, active, kind, password)
    {
      hide MayUse, CanAdminister, Effective, UpdateActive, UpdateKind;
      if !Allows(Tables(), actor, Known(UsersManage)) { return Refused(GuardError(Tables(), actor)); }
      if kind == Some(GUEST) { return Refused(Validation); }
      if target !in users { return Refused(NotFound); }
      if !NoOverreach(Tables(), actor, target) { return Refused(Forbidden); }
      assert UpdateUserRefusal(Tables(), actor, target, kind).None?;
      hide UpdateUserRefusal;
      reply := ChangeActive(actor, target, active);
      if reply.Refused? { return; }
      reply := ChangeKind(actor, target, kind);
      if reply.Refused? { return; }
      if password.Some? { users := users[target := users[target].(password := password.value)]; }
    }

    method CheckEarlyDeletion(actor: UserId, target: UserId) returns (refusal: Option<Error>)
      ensures refusal == EarlyDeletionRefusal(Tables(), actor, target)
    {
      hide MayUse, CanAdminister, Effective;
      if !Allows(Tables(), actor, Known(UsersManage)) { return Some(GuardError(Tables(), actor)); }
      if target == actor { return Some(Validation); }
      if target !in users { return Some(NotFound); }
      if !NoOverreach(Tables(), actor, target) { return Some(Forbidden); }
      return None;
    }

    method CascadeUser(target: UserId)
      modifies `users, `userRoles, `userPerms, `members, `vmAccess
      ensures Tables() == DropUser(old(Tables()), target)
    {
      users := users - {target};
      userRoles := WithoutLeft(userRoles, target);
      userPerms := WithoutLeft(userPerms, target);
      members := WithoutRight(members, target);
      vmAccess := WithoutLeft(vmAccess, target);
    }

    /** The Guacamole account goes first; only then is the deletion itself decided. */
    method DeleteUser(actor: UserId, target: UserId, offline: bool) returns (reply: Reply)
      modifies `users, `userRoles, `userPerms, `members, `vmAccess, `index
      ensures Outcome(Tables(), reply) == Iam.DeleteUser(old(Tables()), actor, target)
      ensures index == if DropsGuacUser(old(Tables()), actor, target) && !offline then WithoutUser(old(index), target) else old(index)
    {
      hide EarlyDeletionRefusal, ProtectedRefusal, DropUser;
      var refusal := CheckEarlyDeletion(actor, target);
      if refusal.Some? { return Refused(refusal.value); }
      if !offline { index := WithoutUser(index, target); }
      refusal := ProtectedRefusal(Tables(), target);
      if refusal.Some? { return Refused(refusal.value); }
      CascadeUser(target);
      return Done;
    }

    method CheckApprove(actor: UserId, request: RequestId, kind: Kind) returns (refusal: Option<Error>)
      ensures refusal == ApproveRefusal(Tables(), actor, request, kind)
    {
      hide MayUse, MayConfer, Effective, BuiltInRole;
      if !Allows(Tables(), actor, Known(UsersManage)) { return Some(GuardError(Tables(), actor)); }
      if kind == GUEST { return Some(Validation); }
      if RoleIdOf(kind) !in roles { return Some(NotFound); }
      if !NothingMissing(Tables(), actor, BuiltInRole(Tables(), kind)) { return Some(Forbidden); }
      if request !in pending { return Some(NotFound); }
      return None;
    }

    method Approve(actor: UserId, request: RequestId, newId: UserId, kind: Kind) returns (reply: Reply)
      modifies `users, `userRoles, `pending
      ensures Outcome(Tables(), reply) == Iam.Approve(old(Tables()), actor, request, newId, kind)
    {
      hide ApproveRefusal, InsertUser, UsernameTaken;
      var refusal := CheckApprove(actor, request, kind);
      if refusal.Some? { return Refused(refusal.value); }
      ApprovalNeedsRequest(Tables(), actor, request, kind);
      var wish := pending[request];
      if wish.createdAt < now - PENDING_MAX {
        pending := pending - {request};
        return Refused(Conflict);
      }
      if UsernameTaken(Tables(), wish.username) || newId in users { return Refused(Conflict); }
      pending := pending - {request};
      Insert(newId, wish.username, wish.password, kind);
      return Done;
    }

    // -- Any of them ---------------------------------------------------------

    method HandlePlain(actor: UserId, req: Request) returns (reply: Reply)
      requires !Touching(req) && !req.ReqDeleteUser?
      modifies `roles, `userRoles, `groupRoles, `userPerms, `groups, `users, `pending
      ensures Outcome(Tables(), reply) == Serve(old(Tables()), actor, req)
    {
      hide Iam.CreateRole, Iam.EditRole, Iam.DeleteRole, Iam.AssignRole, Iam.RemoveRole, Iam.GrantPermission,
           Iam.RevokePermission, Iam.CreateGroup, Iam.RenameGroup, Iam.CreateUser, Iam.UpdateUser, Iam.Approve;
      match req {
        case ReqCreateRole(newId, name, perms) => reply := CreateRole(actor, newId, name, perms);
        case ReqEditRole(r, name, perms) => reply := EditRole(actor, r, name, perms);
        case ReqDeleteRole(r) => reply := DeleteRole(actor, r);
        case ReqAssignRole(u, r, expires) => reply := AssignRole(actor, u, r, expires);
        case ReqRemoveRole(u, r) => reply := RemoveRole(actor, u, r);
        case ReqGrantPermission(u, p, expires) => reply := GrantPermission(actor, u, p, expires);
        case ReqRevokePermission(u, p) => reply := RevokePermission(actor, u, p);
        case ReqCreateGroup(newId, name) => reply := CreateGroup(actor, newId, name);
        case ReqRenameGroup(g, name) => reply := RenameGroup(actor, g, name);
        case ReqCreateUser(newId, username, secret, kind) => reply := CreateUser(actor, newId, username, secret, kind);
        case ReqUpdateUser(u, active, kind, password) => reply := UpdateUser(actor, u, active, kind, password);
        case ReqApprove(request, newId, kind) => reply := Approve(actor, request, newId, kind);
      }
    }

    method HandleTouching(actor: UserId, req: Request, broken: Broken) returns (reply: Reply)
      requires Touching(req)
      modifies `groups, `members, `groupRoles, `groupVms, `index
      ensures Outcome(Tables(), reply) == Serve(old(Tables()), actor, req)
      ensures index == Synced(old(index), old(Tables()), Tables(), req, reply, broken)
    {
      hide Synced, Iam.DeleteGroup, Iam.AddMember, Iam.RemoveMember, Iam.LinkRole, Iam.UnlinkRole, Iam.GrantVm,
           Iam.RevokeVm;
      match req {
        case ReqDeleteGroup(g) => reply := DeleteGroup(actor, g, broken);
        case ReqAddMember(g, u, expires) => reply := AddMember(actor, g, u, expires, broken);
        case ReqRemoveMember(g, u) => reply := RemoveMember(actor, g, u, broken);
        case ReqLinkRole(g, r, expires) => reply := LinkRole(actor, g, r, expires, broken);
        case ReqUnlinkRole(g, r) => reply := UnlinkRole(actor, g, r, broken);
        case ReqGrantVm(g, v, protocols, expires) => reply := GrantVm(actor, g, v, protocols, expires, broken);
        case ReqRevokeVm(g, v) => reply := RevokeVm(actor, g, v, broken);
      }
    }

    /** Every endpoint does to the tables and to the index what the run theorems' step does. */
    method Handle(actor: UserId, req: Request, broken: Broken, offline: bool) returns (reply: Reply)
      modifies this
      ensures Outcome(Tables(), reply) == Serve(old(Tables()), actor, req)
      ensures var after := Apply(State(old(Tables()), old(index), {}, {}, {}), Step(Call(actor, req), broken, offline));
              Tables() == after.db && index == after.index
    {
      ghost var before, was := Tables(), index;
      hide Apply, Serve, Synced, DropsGuacUser, WithoutUser, Iam.DeleteUser;
      if req.ReqDeleteUser? {
        DeletionIsApplied(before, was, actor, req.target, broken, offline);
        reply := DeleteUser(actor, req.target, offline);
      } else {
        RequestIsApplied(before, was, actor, req, broken, offline);
        if Touching(req) { reply := HandleTouching(actor, req, broken); } else { reply := HandlePlain(actor, req); }
      }
    }
  }
}
