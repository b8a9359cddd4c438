/** Runs of a fresh installation, one account and one VM, at which a promise fails. */
module Incidents {
  import opened Common
  import opened Iam
  import opened Tables
  import opened Effects
  import opened Root
  import opened Guac
  import opened Agreement
  import opened Protocols
  import opened Cleanup

  const ROOT: UserId := 1
  const VM: VmId := 7

  /** The seeded tables once setup has run, and one VM that is not private. */
  function Installed(now: int): Db {
    MarkInitial(InsertUser(Seeded(now), ROOT, "root", "", ADMIN), ROOT).(vms := map[VM := Vm(false, None)])
  }

  function Fresh(now: int): State {
    State(Installed(now), map[], {}, {}, {})
  }

  function ByRoot(req: Request): Step {
    Step(Call(ROOT, req), map[], false)
  }

  // -- What an administrator of such an installation may do --------------------------------

  /** Nothing but built-in roles carries a permission. */
  predicate Bare(db: Db) {
    && ADMIN_ROLE in db.roles && db.roles[ADMIN_ROLE].name == BuiltIn(ADMIN)
    && (forall r :: r in db.roles ==> db.roles[r].stored == {})
    && db.userPerms == map[] && db.groupRoles == map[]
  }

  predicate Admin(db: Db, a: UserId) {
    Bare(db) && SignedIn(db, a) && (a, ADMIN_ROLE) in db.userRoles && db.userRoles[(a, ADMIN_ROLE)] == None
  }

  lemma AdminHolds(db: Db, a: UserId, c: Code)
    requires Admin(db, a)
    ensures Holds(db, a, Known(c)) && MayUse(db, a, Known(c))
  {
    assert BuiltInGrants(ADMIN, c);
    assert LiveSource(db, a, Known(c), ByRole(ADMIN_ROLE));
  }

  lemma BareHoldsKnown(db: Db, u: UserId, p: Permission)
    requires Bare(db) && Holds(db, u, p)
    ensures p.Known? && exists r :: r in db.roles && HasRole(db, u, r) && p in RoleResolves(db.roles[r])
  {
    var src :| LiveSource(db, u, p, src);
    assert src.ByRole?;
    assert HasRole(db, u, src.role);
  }

  lemma AdminAdministers(db: Db, a: UserId, t: UserId)
    requires Admin(db, a)
    ensures CanAdminister(db, a, t)
  {
    forall p | Holds(db, t, p) ensures Holds(db, a, p) {
      BareHoldsKnown(db, t, p);
      AdminHolds(db, a, p.code);
    }
  }

  lemma AdminConfers(db: Db, a: UserId, ps: set<Permission>)
    requires Admin(db, a) && forall p :: p in ps ==> p.Known?
    ensures MayConfer(db, a, ps)
  {
    forall p | p in ps ensures Holds(db, a, p) { AdminHolds(db, a, p.code); }
  }

  /** What one of the root's requests writes, and what becomes of the index. */
  lemma RootServes(s: State, req: Request, written: Db)
    requires !req.ReqDeleteUser? && Serve(s.db, ROOT, req) == Outcome(written, Done)
    ensures var after := Apply(s, ByRoot(req));
            && after == Served(s, ROOT, req, map[]) && after.db == written
            && forall u, v :: Entry(after.index, (u, v)) ==
                 if (u, v) in Touched(s.db, written, req) then Allowed(written, u, v) else Entry(s.index, (u, v))
  {
    hide Serve, Touched, Allowed;
  }

  lemma RootCreatesGroup(s: State, g: GroupId, name: string)
    requires Admin(s.db, ROOT) && g !in s.db.groups && !GroupNameTaken(s.db, name)
    ensures Apply(s, ByRoot(ReqCreateGroup(g, name))).db == PutGroup(s.db, g, name)
  {
    AdminHolds(s.db, ROOT, GroupsManage);
    hide MayUse, Admin, PutGroup;
    assert Serve(s.db, ROOT, ReqCreateGroup(g, name)) == Outcome(PutGroup(s.db, g, name), Done);
    hide Apply, Serve;
    RootServes(s, ReqCreateGroup(g, name), PutGroup(s.db, g, name));
  }

  lemma RootGrantsVm(s: State, g: GroupId)
    requires Admin(s.db, ROOT) && g in s.db.groups && VM in s.db.vms && !s.db.vms[VM].privacy
    ensures Apply(s, ByRoot(ReqGrantVm(g, VM, None, None))).db == PutGroupVm(s.db, g, VM, VmGrant(None, None))
  {
    VmGranted(s.db, g);
    hide Apply, Serve, Admin, PutGroupVm;
    RootServes(s, ReqGrantVm(g, VM, None, None), PutGroupVm(s.db, g, VM, VmGrant(None, None)));
  }

  lemma VmGranted(db: Db, g: GroupId)
    requires Admin(db, ROOT) && g in db.groups && VM in db.vms && !db.vms[VM].privacy
    ensures Serve(db, ROOT, ReqGrantVm(g, VM, None, None)) == Outcome(PutGroupVm(db, g, VM, VmGrant(None, None)), Done)
  {
    VmGrantPasses(db, g);
    hide Admin, PutGroupVm, GrantVmRefusal;
  }

  lemma VmGrantPasses(db: Db, g: GroupId)
    requires Admin(db, ROOT) && g in db.groups && VM in db.vms && !db.vms[VM].privacy
    ensures GrantVmRefusal(db, ROOT, g, VM, None).None?
  {
    AdminHolds(db, ROOT, GroupsManage);
    AdminHolds(db, ROOT, VmEdit);
    hide MayUse, Admin, HasAccessOrOwns, GuardError;
  }

  lemma RootAddsMember(s: State, g: GroupId, t: UserId, e: Expiry)
    requires Admin(s.db, ROOT) && g in s.db.groups && t in s.db.users && ExpiryOk(s.db, e) && (g, VM) in s.db.groupVms
    ensures var after := Apply(s, ByRoot(ReqAddMember(g, t, e)));
            after.db == PutMember(s.db, g, t, e) && Exact(after, t, VM)
  {
    MemberAdded(s.db, g, t, e);
    var written := PutMember(s.db, g, t, e);
    assert (t, VM) in Touched(s.db, written, ReqAddMember(g, t, e));
    hide Serve, Apply, Touched, Admin, PutMember, Allowed;
    RootServes(s, ReqAddMember(g, t, e), written);
  }

  lemma MemberAdded(db: Db, g: GroupId, t: UserId, e: Expiry)
    requires Admin(db, ROOT) && g in db.groups && t in db.users && ExpiryOk(db, e)
    ensures Serve(db, ROOT, ReqAddMember(g, t, e)) == Outcome(PutMember(db, g, t, e), Done)
  {
    AdminHolds(db, ROOT, GroupsManage);
    AdminAdministers(db, ROOT, t);
    assert GroupConfers(db, g) == {};
    AdminConfers(db, ROOT, {});
    hide MayUse, Admin, PutMember, CanAdminister, MayConfer, GroupConfers, ExpiryOk;
  }

  lemma RootCreatesUser(s: State, t: UserId, name: string, kind: Kind)
    requires Admin(s.db, ROOT) && t !in s.db.users && !UsernameTaken(s.db, name)
    requires RoleIdOf(kind) in s.db.roles && s.db.roles[RoleIdOf(kind)].name == BuiltIn(kind)
    ensures var after := Apply(s, ByRoot(ReqCreateUser(t, name, "", kind)));
            after.db == InsertUser(s.db, t, name, "", kind) && forall k :: Entry(after.index, k) == Entry(s.index, k)
  {
    UserCreated(s.db, t, name, kind);
    var written := InsertUser(s.db, t, name, "", kind);
    assert Touched(s.db, written, ReqCreateUser(t, name, "", kind)) == {};
    hide Serve, Apply, Touched, Admin, InsertUser, Allowed;
    RootServes(s, ReqCreateUser(t, name, "", kind), written);
    forall k: Pair ensures Entry(Apply(s, ByRoot(ReqCreateUser(t, name, "", kind))).index, k) == Entry(s.index, k) {
      assert k == (k.0, k.1);
    }
  }

  lemma UserCreated(db: Db, t: UserId, name: string, kind: Kind)
    requires Admin(db, ROOT) && t !in db.users && !UsernameTaken(db, name)
    requires RoleIdOf(kind) in db.roles && db.roles[RoleIdOf(kind)].name == BuiltIn(kind)
    ensures Serve(db, ROOT, ReqCreateUser(t, name, "", kind)) == Outcome(InsertUser(db, t, name, "", kind), Done)
  {
    AdminHolds(db, ROOT, UsersManage);
    AdminConfers(db, ROOT, BuiltInRole(db, kind));
    hide MayUse, MayConfer, BuiltInRole, Admin, InsertUser, UsernameTaken;
  }

  lemma {:induction false} RunSnoc(s: State, steps: seq<Step>, e: Step)
    ensures RunAll(s, steps + [e]) == Apply(RunAll(s, steps), e)
    decreases |steps|
  {
    hide Apply;
    if steps == [] {
      assert [] + [e] == [e] && [e][1..] == [];
    } else {
      assert (steps + [e])[1..] == steps[1..] + [e];
      RunSnoc(Apply(s, steps[0]), steps[1..], e);
    }
  }

  // -- What their writes keep --------------------------------------------------------------

  lemma GroupKeepsAdmin(db: Db, g: GroupId, name: string, a: UserId)
    requires Admin(db, a)
    ensures Admin(PutGroup(db, g, name), a)
  {
  }

  lemma VmKeepsAdmin(db: Db, g: GroupId, v: VmId, grant: VmGrant, a: UserId)
    requires Admin(db, a)
    ensures Admin(PutGroupVm(db, g, v, grant), a)
  {
  }

  lemma MemberKeepsAdmin(db: Db, g: GroupId, t: UserId, e: Expiry, a: UserId)
    requires Admin(db, a)
    ensures Admin(PutMember(db, g, t, e), a)
  {
  }

  lemma UserKeepsAdmin(db: Db, t: UserId, name: string, kind: Kind, a: UserId)
    requires Admin(db, a) && t !in db.users
    ensures Admin(InsertUser(db, t, name, "", kind), a)
    ensures kind == ADMIN ==> Admin(InsertUser(db, t, name, "", kind), t)
  {
  }

  // -- A group with the VM ------------------------------------------------------------------

  const OPENING := [ByRoot(ReqCreateGroup(1, "a"))] + [ByRoot(ReqGrantVm(1, VM, None, None))]

  function WithGroup(db: Db, g: GroupId, name: string): Db {
    PutGroupVm(PutGroup(db, g, name), g, VM, VmGrant(None, None))
  }

  /** Root opens a group and gives it the VM. */
  lemma RootEquips(s: State, g: GroupId, name: string)
    requires Admin(s.db, ROOT) && g !in s.db.groups && !GroupNameTaken(s.db, name) && VM in s.db.vms && !s.db.vms[VM].privacy
    ensures var after := Apply(Apply(s, ByRoot(ReqCreateGroup(g, name))), ByRoot(ReqGrantVm(g, VM, None, None)));
            after.db == WithGroup(s.db, g, name) && Admin(after.db, ROOT)
  {
    var s1 := Apply(s, ByRoot(ReqCreateGroup(g, name)));
    RootCreatesGroup(s, g, name);
    GroupKeepsAdmin(s.db, g, name, ROOT);
    var grown := PutGroup(s.db, g, name);
    assert g in grown.groups && grown.vms == s.db.vms;
    hide Apply, Admin, PutGroup, PutGroupVm, GroupNameTaken;
    RootGrantsVm(s1, g);
    VmKeepsAdmin(grown, g, VM, VmGrant(None, None), ROOT);
  }

  function Equipped(now: int): Db {
    WithGroup(Installed(now), 1, "a")
  }

  lemma OpeningEquips(now: int)
    ensures RunAll(Fresh(now), OPENING).db == Equipped(now) && Admin(Equipped(now), ROOT)
  {
    var s, e1, e2 := Fresh(now), ByRoot(ReqCreateGroup(1, "a")), ByRoot(ReqGrantVm(1, VM, None, None));
    InstalledAdmin(now);
    hide Apply, Installed, Admin, GroupNameTaken, WithGroup;
    RootEquips(s, 1, "a");
    RunSnoc(s, [], e1);
    RunSnoc(s, [e1], e2);
    assert [] + [e1] == [e1];
  }

  lemma InstalledAdmin(now: int)
    ensures Admin(Installed(now), ROOT) && !GroupNameTaken(Installed(now), "a") && Installed(now).vms == map[VM := Vm(false, None)]
    ensures Installed(now).groups == map[] && Installed(now).users.Keys == {ROOT} && Installed(now).users[ROOT].username == "root"
    ensures Installed(now).users[ROOT].initialAdmin && Installed(now).now == now
    ensures Installed(now).members == map[] && Installed(now).groupVms == map[] && Installed(now).vmAccess == map[]
    ensures Installed(now).userRoles.Keys == {(ROOT, ADMIN_ROLE)} && Installed(now).roles == Seeded(now).roles
  {
  }

  // -- The sweep revokes what is still reachable ---------------------------------------------

  /** Root joins two groups that both have the VM, the first for a moment only; the moment passes. */
  function TwoGroups(now: int): seq<Step> {
    OPENING + [ByRoot(ReqCreateGroup(2, "b"))] + [ByRoot(ReqGrantVm(2, VM, None, None))]
    + [ByRoot(ReqAddMember(1, ROOT, Some(now + 1)))] + [ByRoot(ReqAddMember(2, ROOT, None))] + [Step(Tick(now + 1), map[], false)]
  }

  function BothEquipped(now: int): Db {
    WithGroup(Equipped(now), 2, "b")
  }

  lemma BothAreEquipped(now: int)
    ensures var s := RunAll(Fresh(now), OPENING + [ByRoot(ReqCreateGroup(2, "b"))] + [ByRoot(ReqGrantVm(2, VM, None, None))]);
            s.db == BothEquipped(now) && Admin(s.db, ROOT)
  {
    var s, e1, e2 := RunAll(Fresh(now), OPENING), ByRoot(ReqCreateGroup(2, "b")), ByRoot(ReqGrantVm(2, VM, None, None));
    OpeningEquips(now);
    EquippedTables(now);
    hide Apply, RunAll, Equipped, Admin, WithGroup;
    assert !GroupNameTaken(s.db, "b");
    RootEquips(s, 2, "b");
    RunSnoc(Fresh(now), OPENING, e1);
    RunSnoc(Fresh(now), OPENING + [e1], e2);
  }

  lemma EquippedTables(now: int)
    ensures var db := Equipped(now);
            && db.groups == map[1 := "a"] && db.vms == map[VM := Vm(false, None)] && (1, VM) in db.groupVms
            && db.groupVms[(1, VM)] == VmGrant(None, None) && db.now == now
            && db.groupVms.Keys == {(1, VM)} && db.members == map[] && db.vmAccess == map[]
            && db.users == Installed(now).users && db.userRoles == Installed(now).userRoles && db.roles == Installed(now).roles
  {
    InstalledAdmin(now);
    hide Installed, Admin;
  }

  lemma BothTables(now: int)
    ensures var db := BothEquipped(now);
            && 1 in db.groups && 2 in db.groups && (1, VM) in db.groupVms && (2, VM) in db.groupVms
            && db.groupVms[(2, VM)] == VmGrant(None, None) && db.now == now && ROOT in db.users
  {
    EquippedTables(now);
    InstalledAdmin(now);
    hide Equipped, Installed, Admin;
  }

  function JoinedBoth(now: int): Db {
    PutMember(PutMember(BothEquipped(now), 1, ROOT, Some(now + 1)), 2, ROOT, None)
  }

  lemma RootJoinsBoth(s: State, now: int)
    requires s.db == BothEquipped(now) && Admin(s.db, ROOT)
    ensures var after := Apply(Apply(s, ByRoot(ReqAddMember(1, ROOT, Some(now + 1)))), ByRoot(ReqAddMember(2, ROOT, None)));
            after.db == JoinedBoth(now) && Exact(after, ROOT, VM)
  {
    BothTables(now);
    hide Apply, Admin, Exact, BothEquipped;
    RootAddsMember(s, 1, ROOT, Some(now + 1));
    MemberKeepsAdmin(s.db, 1, ROOT, Some(now + 1), ROOT);
    RootAddsMember(Apply(s, ByRoot(ReqAddMember(1, ROOT, Some(now + 1)))), 2, ROOT, None);
  }

  lemma TwoGroupsEnds(now: int)
    ensures var s := RunAll(Fresh(now), TwoGroups(now));
            s.db == JoinedBoth(now).(now := now + 1) && Entry(s.index, (ROOT, VM)) != {}
  {
    var prefix := OPENING + [ByRoot(ReqCreateGroup(2, "b"))] + [ByRoot(ReqGrantVm(2, VM, None, None))];
    var e1, e2, e3 := ByRoot(ReqAddMember(1, ROOT, Some(now + 1))), ByRoot(ReqAddMember(2, ROOT, None)), Step(Tick(now + 1), map[], false);
    var s4 := RunAll(Fresh(now), prefix);
    var s6 := Apply(Apply(s4, e1), e2);
    BothAreEquipped(now);
    RootJoinsBoth(s4, now);
    AllowedMeansConnect(s6.db, ROOT, VM);
    SecondGroupIsLive(now, now);
    Moments(s6, now + 1);
    hide Apply, RunAll, CanConnect, Allowed, JoinedBoth, BothEquipped, Admin;
    RunSnoc(Fresh(now), prefix, e1);
    RunSnoc(Fresh(now), prefix + [e1], e2);
    RunSnoc(Fresh(now), prefix + [e1] + [e2], e3);
  }

  lemma Moments(s: State, to: int)
    ensures var after := Apply(s, Step(Tick(to), map[], false));
            after.index == s.index && (to >= s.db.now ==> after.db == s.db.(now := to))
  {
    hide CanConnect;
  }

  lemma SecondGroupIsLive(now: int, to: int)
    ensures JoinedBoth(now).now == now && CanConnect(JoinedBoth(now).(now := to), ROOT, VM)
    ensures to == now ==> CanConnect(JoinedBoth(now), ROOT, VM)
    ensures to > now ==> IsStale(JoinedBoth(now).(now := to), ROOT, VM)
  {
    BothTables(now);
    var joined := JoinedBoth(now);
    hide BothEquipped;
    var after := joined.(now := to);
    assert LivePath(after, ROOT, VM, Via(2)) && Opens(GrantOn(after, ROOT, VM, Via(2)));
    assert to == now ==> after == joined;
    assert (1, ROOT) in after.members && (to > now ==> ShownBy(after, 1, ROOT, VM));
  }

  /** The next sweep takes the connection of somebody who can still reach the VM. */
  lemma SweepRevokesReachable(now: int)
    ensures var s := RunAll(Fresh(now), TwoGroups(now));
            var after := SweptUp(s, {}, map[]);
            && CanConnect(s.db, ROOT, VM) && Entry(s.index, (ROOT, VM)) != {}
            && CanConnect(after.db, ROOT, VM) && Entry(after.index, (ROOT, VM)) == {}
  {
    var s := RunAll(Fresh(now), TwoGroups(now));
    TwoGroupsEnds(now);
    SecondGroupIsLive(now, now + 1);
    SweptAccess(s.db, {}, ROOT, VM);
    hide RunAll, CanConnect, Sweep, IsStale, JoinedBoth, TwoGroups;
  }

  // -- A lapsed connection nobody will find ----------------------------------------------------

  /** Root joins the group for a moment, and the moment passes. */
  function Lapsed(now: int): seq<Step> {
    OPENING + [ByRoot(ReqAddMember(1, ROOT, Some(now + 1)))] + [Step(Tick(now + 1), map[], false)]
  }

  lemma RootHasLapsed(now: int)
    ensures var s := RunAll(Fresh(now), Lapsed(now));
            LapsedMember(s.db, 1, ROOT, VM) && Entry(s.index, (ROOT, VM)) != {} && Admin(s.db, ROOT) && 1 in s.db.groups
  {
    var e1, e2 := ByRoot(ReqAddMember(1, ROOT, Some(now + 1))), Step(Tick(now + 1), map[], false);
    var s2 := RunAll(Fresh(now), OPENING);
    var s3 := Apply(s2, e1);
    OpeningEquips(now);
    EquippedTables(now);
    InstalledAdmin(now);
    MomentPasses(now);
    hide Apply, RunAll, Equipped, Installed, Admin, CanConnect, Allowed, LapsedMember, PutMember;
    RootAddsMember(s2, 1, ROOT, Some(now + 1));
    AllowedMeansConnect(s3.db, ROOT, VM);
    Moments(s3, now + 1);
    RunSnoc(Fresh(now), OPENING, e1);
    RunSnoc(Fresh(now), OPENING + [e1], e2);
  }

  lemma MomentPasses(now: int)
    ensures var db := PutMember(Equipped(now), 1, ROOT, Some(now + 1));
            && CanConnect(db, ROOT, VM) && db.now == now
            && LapsedMember(db.(now := now + 1), 1, ROOT, VM) && Admin(db.(now := now + 1), ROOT) && 1 in db.groups
  {
    hide Equipped, Installed, RunAll, Admin, LapsedMember, CanConnect;
    OpeningEquips(now);
    EquippedTables(now);
    InstalledAdmin(now);
    MemberKeepsAdmin(Equipped(now), 1, ROOT, Some(now + 1), ROOT);
    TimeKeepsAdmin(PutMember(Equipped(now), 1, ROOT, Some(now + 1)), now + 1, ROOT);
    ForAMoment(Equipped(now));
  }

  lemma TimeKeepsAdmin(db: Db, to: int, a: UserId)
    requires Admin(db, a)
    ensures Admin(db.(now := to), a)
  {
  }

  lemma ForAMoment(db: Db)
    requires db.groupVms.Keys == {(1, VM)} && db.groupVms[(1, VM)] == VmGrant(None, None)
    requires db.members == map[] && db.vmAccess == map[]
    ensures var joined := PutMember(db, 1, ROOT, Some(db.now + 1));
            CanConnect(joined, ROOT, VM) && LapsedMember(joined.(now := db.now + 1), 1, ROOT, VM)
  {
    var joined := PutMember(db, 1, ROOT, Some(db.now + 1));
    assert LivePath(joined, ROOT, VM, Via(1)) && Opens(GrantOn(joined, ROOT, VM, Via(1)));
  }

  /** Then root revokes the VM from the group, and no sweep ever takes the connection away. */
  lemma RevokedTooEarly(now: int, later: seq<Step>)
    requires AllIdle(later)
    ensures var s := Served(RunAll(Fresh(now), Lapsed(now)), ROOT, ReqRevokeVm(1, VM), map[]);
            Exposed(RunAll(s, later), ROOT, VM)
  {
    var s := RunAll(Fresh(now), Lapsed(now));
    RootHasLapsed(now);
    AdminHolds(s.db, ROOT, GroupsManage);
    AdminHolds(s.db, ROOT, VmEdit);
    hide RunAll, MayUse, Admin, LapsedMember, Served, Exposed;
    assert RevokeVmRefusal(s.db, ROOT, 1).None?;
    RevokeStrandsLapsedMember(s, ROOT, 1, ROOT, VM, later);
  }

  // -- A refused deletion empties the index ----------------------------------------------------

  /** Root joins the group and appoints a deputy. */
  const DEPUTISED := OPENING + [ByRoot(ReqAddMember(1, ROOT, None))] + [ByRoot(ReqCreateUser(2, "deputy", "", ADMIN))]

  function RootJoined(now: int): Db {
    PutMember(Equipped(now), 1, ROOT, None)
  }

  lemma RootIsIn(now: int)
    ensures var db, later := RootJoined(now), InsertUser(RootJoined(now), 2, "deputy", "", ADMIN);
            && Admin(db, ROOT) && CanConnect(db, ROOT, VM) && 2 !in db.users && !UsernameTaken(db, "deputy")
            && RoleIdOf(ADMIN) in db.roles && db.roles[RoleIdOf(ADMIN)].name == BuiltIn(ADMIN)
            && Admin(later, 2) && InitialAdmin(later, ROOT) && CanConnect(later, ROOT, VM)
  {
    hide Equipped, Installed, RunAll, Admin;
    OpeningEquips(now);
    EquippedTables(now);
    InstalledAdmin(now);
    var db := RootJoined(now);
    MemberKeepsAdmin(Equipped(now), 1, ROOT, None, ROOT);
    assert LivePath(db, ROOT, VM, Via(1)) && Opens(GrantOn(db, ROOT, VM, Via(1)));
    UserKeepsAdmin(db, 2, "deputy", ADMIN, ROOT);
    var later := InsertUser(db, 2, "deputy", "", ADMIN);
    assert LivePath(later, ROOT, VM, Via(1)) && Opens(GrantOn(later, ROOT, VM, Via(1)));
  }

  lemma Deputised(now: int)
    ensures var s := RunAll(Fresh(now), DEPUTISED);
            s.db == InsertUser(RootJoined(now), 2, "deputy", "", ADMIN) && Entry(s.index, (ROOT, VM)) != {}
  {
    var e1, e2 := ByRoot(ReqAddMember(1, ROOT, None)), ByRoot(ReqCreateUser(2, "deputy", "", ADMIN));
    var s2 := RunAll(Fresh(now), OPENING);
    var s3 := Apply(s2, e1);
    OpeningEquips(now);
    EquippedTables(now);
    InstalledAdmin(now);
    RootIsIn(now);
    hide Apply, RunAll, Allowed, Equipped, Installed, CanConnect, Admin, UsernameTaken;
    RootAddsMember(s2, 1, ROOT, None);
    AllowedMeansConnect(s3.db, ROOT, VM);
    RootCreatesUser(s3, 2, "deputy", ADMIN);
    RunSnoc(Fresh(now), OPENING, e1);
    RunSnoc(Fresh(now), OPENING + [e1], e2);
  }

  /** The deputy tries to delete root: refused, and root's connections are gone although its access is not. */
  lemma RefusalEmptiesIndex(now: int)
    ensures var s := RunAll(Fresh(now), DEPUTISED);
            var after := UserDeleted(s, 2, ROOT, false);
            && DeleteUser(s.db, 2, ROOT).reply.Refused?
            && CanConnect(s.db, ROOT, VM) && Entry(s.index, (ROOT, VM)) != {}
            && CanConnect(after.db, ROOT, VM) && Entry(after.index, (ROOT, VM)) == {}
  {
    var s := RunAll(Fresh(now), DEPUTISED);
    Deputised(now);
    RootIsIn(now);
    hide RunAll, CanConnect, RootJoined, InsertUser, LiveAdmin, OtherActiveAdmin;
    DeputyMayTry(s.db);
    LateRefusalDropsIndex(s, 2, ROOT, VM);
    hide EarlyDeletionRefusal, Admin, UserDeleted;
    assert ProtectedRefusal(s.db, ROOT).Some?;
  }

  lemma DeputyMayTry(db: Db)
    requires Admin(db, 2) && ROOT in db.users
    ensures EarlyDeletionRefusal(db, 2, ROOT).None?
  {
    AdminHolds(db, 2, UsersManage);
    AdminAdministers(db, 2, ROOT);
    hide MayUse, CanAdminister, Admin;
  }

  // -- A direct grant narrows protocols behind the index's back ----------------------------------

  /** Root takes on a clerk and puts it into the group. */
  const CLERK := OPENING + [ByRoot(ReqCreateUser(2, "clerk", "", USER))] + [ByRoot(ReqAddMember(1, 2, None))]

  function ClerkCreated(now: int): Db {
    InsertUser(Equipped(now), 2, "clerk", "", USER)
  }

  lemma ClerkIsIn(now: int)
    ensures var db, later := ClerkCreated(now), PutMember(ClerkCreated(now), 1, 2, None);
            && 2 !in Equipped(now).users && !UsernameTaken(Equipped(now), "clerk")
            && RoleIdOf(USER) in Equipped(now).roles && Equipped(now).roles[RoleIdOf(USER)].name == BuiltIn(USER)
            && Admin(db, ROOT) && 1 in db.groups && 2 in db.users && (1, VM) in db.groupVms
            && Admin(later, ROOT) && 2 in later.users && Unscoped(later, 2, VM) && Globals(later, 2) == {}
  {
    OpeningEquips(now);
    EquippedTables(now);
    InstalledAdmin(now);
    hide Equipped, Installed, RunAll;
    var db := ClerkCreated(now);
    UserKeepsAdmin(Equipped(now), 2, "clerk", USER, ROOT);
    var later := PutMember(db, 1, 2, None);
    assert LivePath(later, 2, VM, Via(1)) && GrantOn(later, 2, VM, Via(1)).protocols.None?;
    MemberKeepsAdmin(db, 1, 2, None, ROOT);
    ClerkHasNoGlobals(later);
    hide Globals, Holds;
  }

  lemma ClerkHired(now: int)
    ensures var s := RunAll(Fresh(now), CLERK);
            s.db == PutMember(ClerkCreated(now), 1, 2, None) && Exact(s, 2, VM)
  {
    var e1, e2 := ByRoot(ReqCreateUser(2, "clerk", "", USER)), ByRoot(ReqAddMember(1, 2, None));
    var s2 := RunAll(Fresh(now), OPENING);
    OpeningEquips(now);
    ClerkIsIn(now);
    hide Apply, RunAll, Equipped, Admin, UsernameTaken, Unscoped, Globals, InsertUser, Exact;
    RootCreatesUser(s2, 2, "clerk", USER);
    RootAddsMember(Apply(s2, e1), 1, 2, None);
    RunSnoc(Fresh(now), OPENING, e1);
    RunSnoc(Fresh(now), OPENING + [e1], e2);
  }

  lemma ClerkHasNoGlobals(db: Db)
    requires Bare(db) && 3 in db.roles && db.roles[3].name == BuiltIn(USER)
    requires forall r :: (2, r) in db.userRoles ==> r == 3
    ensures Globals(db, 2) == {}
  {
    forall x: Protocol ensures !Holds(db, 2, ProtocolCode(x)) {
      if Holds(db, 2, ProtocolCode(x)) { BareHoldsKnown(db, 2, ProtocolCode(x)); }
    }
    hide Holds;
  }

  /** Root grants the clerk SSH: the index keeps opening every protocol, and only SSH is allowed. */
  lemma GrantLeavesIndexWide(now: int)
    ensures var s := RunAll(Fresh(now), CLERK);
            var after := Served(s, ROOT, ReqGrantPermission(2, Known(ProtocolSsh), None), map[]);
            Exact(s, 2, VM) && Entry(after.index, (2, VM)) == EVERY && Allowed(after.db, 2, VM) == {Ssh}
  {
    var s := RunAll(Fresh(now), CLERK);
    ClerkHired(now);
    ClerkIsIn(now);
    ClerkRunIsWellFormed(now);
    hide RunAll, WellFormed, Unscoped, Exact, Globals, Admin, ClerkCreated, PutMember, Served, Allowed, GrantPermissionRefusal;
    ClerkMayBeGranted(s.db);
    DirectGrantRescopes(s, ROOT, 2, VM, Ssh, None, map[]);
  }

  lemma ClerkMayBeGranted(db: Db)
    requires Admin(db, ROOT) && 2 in db.users
    ensures GrantPermissionRefusal(db, ROOT, 2, ProtocolCode(Ssh), None).None?
  {
    AdminHolds(db, ROOT, UsersManage);
    AdminAdministers(db, ROOT, 2);
    AdminConfers(db, ROOT, {Known(ProtocolSsh)});
    hide MayUse, MayConfer, CanAdminister, Admin;
  }

  lemma ClerkRunIsWellFormed(now: int)
    ensures WellFormed(RunAll(Fresh(now), CLERK).db)
  {
    InstalledIsWellFormed(now);
    InstalledAgrees(now);
    hide WellFormed, Installed, Covered, Justified;
    RunAgrees(Fresh(now), CLERK);
  }

  lemma InstalledIsWellFormed(now: int)
    ensures WellFormed(Installed(now))
  {
    SeededIsWellFormed(now);
    SetupSeedsRoot(Seeded(now), ROOT, "root", "");
    hide MarkInitial, InsertUser, RolesOk;
  }

  lemma InstalledAgrees(now: int)
    requires WellFormed(Installed(now))
    ensures Agrees(Fresh(now))
  {
    hide WellFormed;
    forall u, v, path ensures !LivePath(Installed(now), u, v, path) {}
  }
}
