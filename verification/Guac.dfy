/**
 The Guacamole permission table as an index of VM access. The group endpoints re-sync
 only the pairs they believe they changed; this module says what the index should hold,
 what each event does to it, and how far the two can drift apart over a run.
 */
module Guac {
  import opened Common
  import opened Iam
  import opened Tables

  type Pair = (UserId, VmId)

  /** The connections Guacamole lets a user open on a VM; no entry means none. */
  type Index = map<Pair, set<Protocol>>

  function Entry(index: Index, k: Pair): set<Protocol> {
    if k in index then index[k] else {}
  }

  // -- What the index should hold ----------------------------------------------

  function GrantOn(db: Db, u: UserId, v: VmId, path: Path): VmGrant
    requires LivePath(db, u, v, path)
  {
    match path
    case Direct => db.vmAccess[(u, v)]
    case Via(g) => db.groupVms[(g, v)]
  }

  /** Some live grant names no protocol list. */
  ghost predicate Unscoped(db: Db, u: UserId, v: VmId) {
    exists path :: LivePath(db, u, v, path) && GrantOn(db, u, v, path).protocols.None?
  }

  /** Some live grant lists `x`. */
  ghost predicate Listed(db: Db, u: UserId, v: VmId, x: Protocol) {
    exists path :: LivePath(db, u, v, path) &&
      GrantOn(db, u, v, path).protocols.Some? && x in GrantOn(db, u, v, path).protocols.value
  }

  function ProtocolCode(x: Protocol): Permission {
    match x
    case Ssh => Known(ProtocolSsh)
    case Rdp => Known(ProtocolRdp)
    case Vnc => Known(ProtocolVnc)
  }

  /** The user's global `protocol.*` permissions. */
  ghost function Globals(db: Db, u: UserId): set<Protocol> {
    set x: Protocol | Holds(db, u, ProtocolCode(x))
  }

  const EVERY: set<Protocol> := {Ssh, Rdp, Vnc}

  /** Listed protocols decide; an unlisted grant is scoped by the global permissions, if there are any. */
  ghost function Allowed(db: Db, u: UserId, v: VmId): set<Protocol> {
    if Unscoped(db, u, v) then (if Globals(db, u) == {} then EVERY else Globals(db, u))
    else set x: Protocol | Listed(db, u, v, x)
  }

  predicate Opens(grant: VmGrant) {
    grant.protocols.None? || grant.protocols.value != {}
  }

  /** The user reaches the VM by some live grant that opens at least one protocol. */
  ghost predicate CanConnect(db: Db, u: UserId, v: VmId) {
    exists path :: LivePath(db, u, v, path) && Opens(GrantOn(db, u, v, path))
  }

  lemma AllowedMeansConnect(db: Db, u: UserId, v: VmId)
    ensures Allowed(db, u, v) != {} <==> CanConnect(db, u, v)
  {
    hide LivePath;
    if Unscoped(db, u, v) {
      assert Ssh in EVERY;
    } else if CanConnect(db, u, v) {
      var path :| LivePath(db, u, v, path) && Opens(GrantOn(db, u, v, path));
      var x :| x in GrantOn(db, u, v, path).protocols.value;
      assert x in Allowed(db, u, v);
    }
  }

  // -- What each event does to the index -----------------------------------------

  function LiveMembers(db: Db, g: GroupId): set<UserId> {
    set k | k in db.members && k.0 == g && Live(db.members[k], db.now) :: k.1
  }

  /** Every VM row of the group, expired ones included. */
  function VmIds(db: Db, g: GroupId): set<VmId> {
    set k | k in db.groupVms && k.0 == g :: k.1
  }

  function Cross(us: set<UserId>, vs: set<VmId>): set<Pair> {
    set u, v | u in us && v in vs :: (u, v)
  }

  /** The pairs a handler re-syncs: read before a group goes, after any other change. */
  function Touched(before: Db, after: Db, req: Request): set<Pair> {
    match req
    case ReqDeleteGroup(g) => Cross(LiveMembers(before, g), VmIds(before, g))
    case ReqAddMember(g, t, _) => Cross({t}, VmIds(after, g))
    case ReqRemoveMember(g, t) => Cross({t}, VmIds(after, g))
    case ReqLinkRole(g, _, _) => Cross(LiveMembers(after, g), VmIds(after, g))
    case ReqUnlinkRole(g, _) => Cross(LiveMembers(after, g), VmIds(after, g))
    case ReqGrantVm(g, v, _, _) => Cross(LiveMembers(after, g), {v})
    case ReqRevokeVm(g, v) => Cross(LiveMembers(after, g), {v})
    case _ => {}
  }

  /** Failed attempts, each with the connections it leaves behind for its pair. */
  type Broken = map<Pair, set<Protocol>>

  /** Each touched pair gets exactly the allowed protocols, or whatever a failed attempt left. */
  ghost function Resync(index: Index, db: Db, touched: set<Pair>, broken: Broken): Index {
    index + map k | k in touched :: if k in broken then broken[k] else Allowed(db, k.0, k.1)
  }

  predicate DeadDirect(db: Db, u: UserId, v: VmId) {
    (u, v) in db.vmAccess && !Live(db.vmAccess[(u, v)].expires, db.now)
  }

  /** Group `g` has a membership row and a VM row for the pair, and one of them is dead. */
  predicate ShownBy(db: Db, g: GroupId, u: UserId, v: VmId) {
    (g, u) in db.members && (g, v) in db.groupVms &&
    (!Live(db.members[(g, u)], db.now) || !Live(db.groupVms[(g, v)].expires, db.now))
  }

  /** The pairs the sweep finds: by a dead direct row, or by a group row pair with a dead half. */
  predicate IsStale(db: Db, u: UserId, v: VmId) {
    DeadDirect(db, u, v) || exists k :: k in db.members && k.1 == u && ShownBy(db, k.0, u, v)
  }

  /** The sweep revokes every stale pair it can, without looking for another live path. */
  function Pruned(index: Index, db: Db, stuck: set<Pair>, broken: Broken): Index {
    map k | k in index && (IsStale(db, k.0, k.1) ==> k in stuck) ::
      if IsStale(db, k.0, k.1) && k in broken then broken[k] else index[k]
  }

  function WithoutUser(index: Index, u: UserId): Index {
    map k | k in index && k.0 != u :: index[k]
  }

  /** DELETE /users/:id drops the Guacamole account once these checks pass, before the deletion itself is decided. */
  ghost predicate DropsGuacUser(db: Db, actor: UserId, target: UserId) {
    EarlyDeletionRefusal(db, actor, target).None?
  }

  /**
   The tables, the index, and three sets that record why the two may differ: `lapsed` by the
   clock, `failed` by Guacamole, `dropped` where the index was emptied although access remains.
   */
  datatype State = State(db: Db, index: Index, lapsed: set<Pair>, failed: set<Pair>, dropped: set<Pair>)

  /** `broken` lists the failed attempts, `offline` that a whole-account clean-up failed. */
  datatype Step = Step(event: Event, broken: Broken, offline: bool)

  ghost function Served(s: State, actor: UserId, req: Request, broken: Broken): State {
    var out := Serve(s.db, actor, req);
    var touched := if out.reply.Done? then Touched(s.db, out.db, req) else {};
    var good := touched - broken.Keys;
    State(out.db, Resync(s.index, out.db, touched, broken),
          s.lapsed - good, (s.failed - good) + (touched - good), s.dropped - good)
  }

  /** An accepted request re-syncs the pair. */
  ghost predicate ReSynced(db: Db, actor: UserId, req: Request, u: UserId, v: VmId) {
    var out := Serve(db, actor, req);
    out.reply.Done? && (u, v) in Touched(db, out.db, req)
  }

  lemma ServedTables(s: State, actor: UserId, req: Request, broken: Broken)
    ensures Served(s, actor, req, broken).db == Serve(s.db, actor, req).db
  {
    hide Serve, Touched, Resync;
  }

  ghost function UserDeleted(s: State, actor: UserId, target: UserId, offline: bool): State {
    var out := DeleteUser(s.db, actor, target);
    if !DropsGuacUser(s.db, actor, target) then s.(db := out.db)
    else
      var mine := set k | k in s.index && k.0 == target;
      if offline then s.(db := out.db, failed := s.failed + mine)
      else State(out.db, WithoutUser(s.index, target), s.lapsed, s.failed, if out.reply.Done? then s.dropped else s.dropped + mine)
  }

  ghost function Ticked(s: State, to: int): State {
    var db := Advance(s.db, to);
    s.(db := db, lapsed := s.lapsed + set k | k in s.index && CanConnect(s.db, k.0, k.1) && !CanConnect(db, k.0, k.1))
  }

  ghost function SweptUp(s: State, stuck: set<Pair>, broken: Broken): State {
    var stale := set k | k in s.index && IsStale(s.db, k.0, k.1);
    var revoked := stale - stuck;
    State(Sweep(s.db, stuck), Pruned(s.index, s.db, stuck, broken),
          s.lapsed - revoked, (s.failed - revoked) + (stale - revoked),
          s.dropped + set k | k in revoked && CanConnect(s.db, k.0, k.1))
  }

  ghost function Apply(s: State, step: Step): State {
    match step.event
    case Call(actor, ReqDeleteUser(t)) => UserDeleted(s, actor, t, step.offline)
    case Call(actor, req) => Served(s, actor, req, step.broken)
    case Tick(to) => Ticked(s, to)
    case Swept(stuck) => SweptUp(s, stuck, step.broken)
    case _ => s.(db := Next(s.db, step.event))
  }

  ghost function RunAll(s: State, steps: seq<Step>): State
    decreases |steps|
  {
    if steps == [] then s else RunAll(Apply(s, steps[0]), steps[1..])
  }

  // -- The agreement ---------------------------------------------------------------

  ghost predicate Covered(s: State, u: UserId, v: VmId) {
    CanConnect(s.db, u, v) ==> Entry(s.index, (u, v)) != {} || (u, v) in s.failed + s.dropped
  }

  ghost predicate Justified(s: State, u: UserId, v: VmId) {
    Entry(s.index, (u, v)) != {} ==> CanConnect(s.db, u, v) || (u, v) in s.lapsed + s.failed
  }

  /** Effective access is in the index, and the index is effective access, up to the three recorded reasons. */
  ghost predicate Agrees(s: State) {
    && WellFormed(s.db)
    && forall u, v :: Covered(s, u, v) && Justified(s, u, v)
  }

  // -- Which paths a request can move ------------------------------------------------

  predicate SamePath(a: Db, b: Db, u: UserId, v: VmId, path: Path) {
    && (LivePath(a, u, v, path) <==> LivePath(b, u, v, path))
    && (LivePath(a, u, v, path) ==> GrantOn(a, u, v, path) == GrantOn(b, u, v, path))
  }

  lemma SamePathsSameAccess(a: Db, b: Db, u: UserId, v: VmId)
    requires forall path :: SamePath(a, b, u, v, path)
    ensures CanConnect(a, u, v) <==> CanConnect(b, u, v)
    ensures Unscoped(a, u, v) <==> Unscoped(b, u, v)
    ensures forall x :: Listed(a, u, v, x) <==> Listed(b, u, v, x)
  {
    forall path
      ensures LivePath(a, u, v, path) <==> LivePath(b, u, v, path)
      ensures LivePath(a, u, v, path) ==> GrantOn(a, u, v, path) == GrantOn(b, u, v, path)
    {
      assert SamePath(a, b, u, v, path);
    }
    hide LivePath, GrantOn;
  }

  /** The tables access flows through. */
  predicate SameReach(a: Db, b: Db) {
    a.now == b.now && a.members == b.members && a.groupVms == b.groupVms && a.vmAccess == b.vmAccess
  }

  lemma SameReachSamePath(a: Db, b: Db, u: UserId, v: VmId, path: Path)
    requires SameReach(a, b)
    ensures SamePath(a, b, u, v, path)
  {
  }

  lemma DropGroupPath(db: Db, g: GroupId, u: UserId, v: VmId, path: Path)
    requires (u, v) !in Cross(LiveMembers(db, g), VmIds(db, g))
    ensures SamePath(db, DropGroup(db, g), u, v, path)
  {
    hide Live;
  }

  lemma PutMemberPath(db: Db, g: GroupId, t: UserId, e: Expiry, u: UserId, v: VmId, path: Path)
    requires (u, v) !in Cross({t}, VmIds(PutMember(db, g, t, e), g))
    ensures SamePath(db, PutMember(db, g, t, e), u, v, path)
  {
    hide Live;
  }

  lemma DropMemberPath(db: Db, g: GroupId, t: UserId, u: UserId, v: VmId, path: Path)
    requires (u, v) !in Cross({t}, VmIds(DropMember(db, g, t), g))
    ensures SamePath(db, DropMember(db, g, t), u, v, path)
  {
    hide Live;
  }

  lemma PutGroupVmPath(db: Db, g: GroupId, w: VmId, grant: VmGrant, u: UserId, v: VmId, path: Path)
    requires (u, v) !in Cross(LiveMembers(PutGroupVm(db, g, w, grant), g), {w})
    ensures SamePath(db, PutGroupVm(db, g, w, grant), u, v, path)
  {
    hide Live;
  }

  lemma DropGroupVmPath(db: Db, g: GroupId, w: VmId, u: UserId, v: VmId, path: Path)
    requires (u, v) !in Cross(LiveMembers(DropGroupVm(db, g, w), g), {w})
    ensures SamePath(db, DropGroupVm(db, g, w), u, v, path)
  {
    hide Live;
  }

  predicate MovesPaths(req: Request) {
    req.ReqDeleteGroup? || req.ReqAddMember? || req.ReqRemoveMember? || req.ReqGrantVm? || req.ReqRevokeVm? || req.ReqDeleteUser?
  }

  lemma RoleRequestReach(db: Db, actor: UserId, req: Request)
    requires req.ReqCreateRole? || req.ReqEditRole? || req.ReqDeleteRole? || req.ReqAssignRole? || req.ReqRemoveRole?
          || req.ReqGrantPermission? || req.ReqRevokePermission? || req.ReqLinkRole? || req.ReqUnlinkRole?
          || req.ReqCreateGroup? || req.ReqRenameGroup?
    ensures SameReach(Serve(db, actor, req).db, db)
  {
    hide CreateRoleRefusal, EditRoleRefusal, DeleteRoleRefusal, AssignRoleRefusal, RemoveRoleRefusal, GrantPermissionRefusal,
      RevokePermissionRefusal, LinkRoleRefusal, UnlinkRoleRefusal, CreateGroupRefusal, RenameGroupRefusal;
  }

  lemma UpdateUserReach(db: Db, actor: UserId, req: Request)
    requires req.ReqUpdateUser?
    ensures SameReach(Serve(db, actor, req).db, db)
  {
    hide UpdateUserRefusal, UpdateActive, UpdateKind, SetPassword;
    UpdateActiveReach(db, actor, req.target, req.active);
    var first := UpdateActive(db, actor, req.target, req.active).db;
    UpdateKindReach(first, actor, req.target, req.newKind);
    SetPasswordReach(UpdateKind(first, actor, req.target, req.newKind).db, req.target, req.password);
  }

  lemma UpdateActiveReach(db: Db, actor: UserId, t: UserId, active: Option<bool>)
    ensures SameReach(UpdateActive(db, actor, t, active).db, db)
  {
    hide DeactivationRefusal, SetActive;
    if active.Some? { SetActiveReach(db, t, active.value); }
  }

  lemma SetActiveReach(db: Db, t: UserId, active: bool)
    ensures SameReach(SetActive(db, t, active), db)
  {
  }

  lemma UpdateKindReach(db: Db, actor: UserId, t: UserId, kind: Option<Kind>)
    ensures SameReach(UpdateKind(db, actor, t, kind).db, db)
  {
    hide KindRefusal;
  }

  lemma SetPasswordReach(db: Db, t: UserId, password: Option<string>)
    ensures SameReach(SetPassword(db, t, password), db)
  {
  }

  lemma AdmitReach(db: Db, q: RequestId, newId: UserId, kind: Kind)
    ensures SameReach(Admit(db, q, newId, kind), db) && SameReach(DropPending(db, q), db)
  {
    if q in db.pending { InsertReach(DropPending(db, q), newId, db.pending[q].username, db.pending[q].password, kind); }
    hide InsertUser;
  }

  lemma InsertReach(db: Db, newId: UserId, username: string, password: string, kind: Kind)
    ensures SameReach(InsertUser(db, newId, username, password, kind), db)
  {
  }

  lemma NewAccountReach(db: Db, actor: UserId, req: Request)
    requires req.ReqCreateUser? || req.ReqApprove?
    ensures SameReach(Serve(db, actor, req).db, db)
  {
    hide CreateUserRefusal, ApproveRefusal, UsernameTaken, Admit, DropPending;
    if req.ReqApprove? { AdmitReach(db, req.request, req.newId, req.kind); }
  }

  lemma QuietReach(db: Db, actor: UserId, req: Request)
    requires !MovesPaths(req)
    ensures SameReach(Serve(db, actor, req).db, db)
  {
    hide Serve, SameReach;
    if req.ReqUpdateUser? {
      UpdateUserReach(db, actor, req);
    } else if req.ReqCreateUser? || req.ReqApprove? {
      NewAccountReach(db, actor, req);
    } else {
      RoleRequestReach(db, actor, req);
    }
  }

  lemma MovedPath(db: Db, actor: UserId, req: Request, u: UserId, v: VmId, path: Path)
    requires MovesPaths(req) && !req.ReqDeleteUser?
    requires var out := Serve(db, actor, req); out.reply.Done? && (u, v) !in Touched(db, out.db, req)
    ensures SamePath(db, Serve(db, actor, req).db, u, v, path)
  {
    hide SamePath, GroupRefusal, AddMemberRefusal, RemoveMemberRefusal, GrantVmRefusal, RevokeVmRefusal,
      PutMember, DropMember, PutGroupVm, DropGroupVm, DropGroup, Cross, VmIds, LiveMembers;
    match req
    case ReqDeleteGroup(g) => DropGroupPath(db, g, u, v, path);
    case ReqAddMember(g, t, e) => PutMemberPath(db, g, t, e, u, v, path);
    case ReqRemoveMember(g, t) => DropMemberPath(db, g, t, u, v, path);
    case ReqGrantVm(g, w, ps, e) => PutGroupVmPath(db, g, w, VmGrant(ps, e), u, v, path);
    case ReqRevokeVm(g, w) => DropGroupVmPath(db, g, w, u, v, path);
  }

  /** A pair outside the touched set keeps every path it had: re-syncing the touched pairs alone is enough. */
  lemma UntouchedPathsStay(db: Db, actor: UserId, req: Request, u: UserId, v: VmId)
    requires !req.ReqDeleteUser?
    requires var out := Serve(db, actor, req); out.reply.Done? ==> (u, v) !in Touched(db, out.db, req)
    ensures forall path :: SamePath(db, Serve(db, actor, req).db, u, v, path)
  {
    hide SamePath, Serve, SameReach, Touched;
    var out := Serve(db, actor, req);
    forall path ensures SamePath(db, out.db, u, v, path) {
      if !MovesPaths(req) {
        QuietReach(db, actor, req);
        SameReachSamePath(out.db, db, u, v, path);
        SamePathFlips(out.db, db, u, v, path);
      } else if out.reply.Done? {
        MovedPath(db, actor, req, u, v, path);
      } else {
        MoverRefused(db, actor, req);
        SameReachSamePath(db, out.db, u, v, path);
      }
    }
  }

  lemma SamePathFlips(a: Db, b: Db, u: UserId, v: VmId, path: Path)
    requires SamePath(a, b, u, v, path)
    ensures SamePath(b, a, u, v, path)
  {
  }

  lemma MoverRefused(db: Db, actor: UserId, req: Request)
    requires MovesPaths(req) && Serve(db, actor, req).reply.Refused?
    ensures SameReach(db, Serve(db, actor, req).db)
  {
    hide GroupRefusal, AddMemberRefusal, RemoveMemberRefusal, GrantVmRefusal, RevokeVmRefusal, DeleteUserRefusal;
  }
}
